/** The threaded worker example: a text is scattered letter by letter over workers, each letter goes
    through a long Caesar loop, and the answers are gathered in whatever order they arrive.
    A character is its UTF-16 code unit. */
module Caesar {
  import opened Common

  const SHIFT: nat := 13
  const STEPS: nat := 200000001

  predicate Upper(c: nat) { 65 <= c <= 90 }

  predicate Lower(c: nat) { 97 <= c <= 122 }

  // A letter moved k places around its alphabet, case kept; anything else unchanged.
  function Rotate(c: nat, k: nat): nat {
    if Upper(c) then 65 + (c - 65 + k) % 26
    else if Lower(c) then 97 + (c - 97 + k) % 26
    else c
  }

  lemma ModAdd(x: nat, k: nat)
    ensures (x % 26 + k) % 26 == (x + k) % 26
  {
    assert x == 26 * (x / 26) + x % 26;
    ModMultiple(x % 26 + k, x / 26);
  }

  lemma {:induction false} ModMultiple(y: nat, q: nat)
    ensures (y + 26 * q) % 26 == y % 26
  {
    if q > 0 {
      ModMultiple(y, q - 1);
      assert y + 26 * q == (y + 26 * (q - 1)) + 26;
    }
  }

  lemma RotateTwice(c: nat, j: nat, k: nat)
    ensures Rotate(Rotate(c, j), k) == Rotate(c, j + k)
  {
    if Upper(c) {
      ModAdd(c - 65 + j, k);
    } else if Lower(c) {
      ModAdd(c - 97 + j, k);
    }
  }

  // Only the remainder of the distance counts, so the loop with its odd number of steps is one ROT13.
  lemma WholeLoopIsRot13(c: nat)
    ensures Rotate(c, STEPS * SHIFT) == Rotate(c, 13)
    ensures Rotate(Rotate(c, 13), 13) == c
  {
    assert STEPS * SHIFT == 13 + 26 * 100000000;
    if Upper(c) {
      ModMultiple(c - 65 + 13, 100000000);
    } else if Lower(c) {
      ModMultiple(c - 97 + 13, 100000000);
    }
    RotateTwice(c, 13, 13);
  }

  // d is k letters after c in c's own alphabet, which is closed to a ring; what is no letter is unchanged.
  predicate Shifted(c: nat, d: nat, k: nat) {
    if 'A' as nat <= c <= 'Z' as nat then 'A' as nat <= d <= 'Z' as nat && (d - c - k) % 26 == 0
    else if 'a' as nat <= c <= 'z' as nat then 'a' as nat <= d <= 'z' as nat && (d - c - k) % 26 == 0
    else d == c
  }

  // Rotate gives that character and no other.
  lemma RotateIff(c: nat, d: nat, k: nat)
    ensures d == Rotate(c, k) <==> Shifted(c, d, k)
  {
    if Upper(c) {
      RingIff(65, c, d, k);
    } else if Lower(c) {
      RingIff(97, c, d, k);
    }
  }

  lemma RingIff(first: nat, c: nat, d: nat, k: nat)
    requires first <= c < first + 26
    ensures d == first + (c - first + k) % 26 <==> first <= d < first + 26 && (d - c - k) % 26 == 0
  {
    var x := c - first + k;
    assert x == 26 * (x / 26) + x % 26;
    if d == first + x % 26 {
      assert d - c - k == 26 * -(x / 26);
    }
    if first <= d < first + 26 && (d - c - k) % 26 == 0 {
      var q := (d - c - k) / 26;
      assert d - first == x + 26 * q;
      assert -26 < 26 * (x / 26 + q) < 26;
    }
  }

  // work(): the loop, for any number of steps.
  method Work(req: nat, steps: nat, shift: nat) returns (code: nat)
    ensures code == Rotate(req, steps * shift)
    ensures Shifted(req, code, steps * shift)
  {
    code := req;
    var i := 0;
    while i < steps
      invariant 0 <= i <= steps
      invariant code == Rotate(req, i * shift)
    {
      RotateTwice(req, i * shift, shift);
      assert (i + 1) * shift == i * shift + shift;
      if code >= 65 && code <= 90 {
        code := (code - 65 + shift) % 26 + 65;
      } else if code >= 97 && code <= 122 {
        code := (code - 97 + shift) % 26 + 97;
      }
      i := i + 1;
    }
    RotateIff(req, code, steps * shift);
  }

  // ----- positions as text -----------------------------------------------------------------------

  function Text(n: nat): (r: string)
    ensures |r| > 0
  {
    var digit := '0' + (n % 10) as char;
    if n < 10 then [digit] else Text(n / 10) + [digit]
  }

  // parseInt(text, 10): the longest prefix of digits.
  function ParsePrefix(text: string, value: nat): nat
    decreases |text|
  {
    if text != [] && '0' <= text[0] <= '9'
    then ParsePrefix(text[1..], 10 * value + (text[0] - '0') as nat)
    else value
  }

  lemma {:induction false} ParseAppend(text: string, digit: nat, value: nat)
    requires digit < 10 && forall i :: 0 <= i < |text| ==> '0' <= text[i] <= '9'
    ensures ParsePrefix(text + ['0' + digit as char], value) == 10 * ParsePrefix(text, value) + digit
    decreases |text|
  {
    var d := '0' + digit as char;
    if text == [] {
      assert (text + [d])[1..] == [];
      assert ParsePrefix([], 10 * value + digit) == 10 * value + digit;
    } else {
      assert (text + [d])[1..] == text[1..] + [d];
      ParseAppend(text[1..], digit, 10 * value + (text[0] - '0') as nat);
    }
  }

  lemma {:induction false} TextRoundTrip(n: nat)
    ensures ParsePrefix(Text(n), 0) == n
    ensures forall i :: 0 <= i < |Text(n)| ==> '0' <= Text(n)[i] <= '9'
  {
    if n < 10 {
      ParseAppend([], n, 0);
      assert [] + Text(n) == Text(n);
    } else {
      TextRoundTrip(n / 10);
      ParseAppend(Text(n / 10), n % 10, 0);
    }
  }

  // ----- scatter and gather ------------------------------------------------------------------------

  datatype Job = Job(pos: string, code: nat)

  // Where an answer goes.
  function Index(job: Job): nat {
    ParsePrefix(job.pos, 0)
  }

  function Jobs(input: seq<nat>): seq<Job> {
    seq(|input|, i requires 0 <= i < |input| => Job(Text(i), input[i]))
  }

  // A worker skips a message that is not one byte long, which is a character outside ASCII.
  function Answers(jobs: seq<Job>): seq<Job> {
    if jobs == [] then []
    else Answers(jobs[..|jobs| - 1]) + AnswerTo(jobs[|jobs| - 1])
  }

  function AnswerTo(job: Job): seq<Job> {
    if job.code < 128 then [Job(job.pos, Rotate(job.code, STEPS * SHIFT))] else []
  }

  predicate Ascii(input: seq<nat>) {
    forall i :: 0 <= i < |input| ==> input[i] < 128
  }

  function Rot13(input: seq<nat>): seq<nat> {
    seq(|input|, i requires 0 <= i < |input| => Rotate(input[i], 13))
  }

  lemma {:induction false} AnswersHave(jobs: seq<Job>, x: Job)
    ensures x in Answers(jobs) <==> exists i :: 0 <= i < |jobs| && x in AnswerTo(jobs[i])
  {
    if jobs != [] {
      var n := |jobs| - 1;
      var before := jobs[..n];
      AnswersHave(before, x);
      if x in Answers(before) {
        var i :| 0 <= i < |before| && x in AnswerTo(before[i]);
        assert jobs[i] == before[i];
      }
      if i :| 0 <= i < n && x in AnswerTo(jobs[i]) {
        assert before[i] == jobs[i];
      }
    }
  }

  // An answer carries the position of its letter, and the letter rotated.
  lemma AnswerIsGenuine(input: seq<nat>, x: Job)
    requires x in Answers(Jobs(input))
    ensures var i := Index(x); i < |input| && input[i] < 128 && x.code == Rotate(input[i], 13)
  {
    AnswersHave(Jobs(input), x);
    var i :| 0 <= i < |Jobs(input)| && x in AnswerTo(Jobs(input)[i]);
    TextRoundTrip(i);
    WholeLoopIsRot13(input[i]);
  }

  lemma EveryLetterIsAnswered(input: seq<nat>, i: nat)
    requires i < |input| && input[i] < 128
    ensures exists x :: x in Answers(Jobs(input)) && Index(x) == i
  {
    var x := Job(Text(i), Rotate(input[i], STEPS * SHIFT));
    assert x in AnswerTo(Jobs(input)[i]);
    AnswersHave(Jobs(input), x);
    TextRoundTrip(i);
  }

  lemma LetterArrives(input: seq<nat>, arrivals: seq<Job>, i: nat)
    requires multiset(arrivals) == multiset(Answers(Jobs(input))) && i < |input| && input[i] < 128
    ensures exists j :: 0 <= j < |arrivals| && Index(arrivals[j]) == i
  {
    EveryLetterIsAnswered(input, i);
    var x :| x in Answers(Jobs(input)) && Index(x) == i;
    assert x in multiset(arrivals);
    var j :| 0 <= j < |arrivals| && arrivals[j] == x;
  }

  // The sending loop of process().
  method Scatter(input: seq<nat>) returns (jobs: seq<Job>)
    ensures jobs == Jobs(input)
  {
    jobs := [];
    var i := 0;
    while i < |input|
      invariant 0 <= i <= |input|
      invariant jobs == Jobs(input)[..i]
    {
      jobs := jobs + [Job(Text(i), input[i])];
      i := i + 1;
    }
    assert Jobs(input)[..i] == Jobs(input);
  }

  method Every(output: array<Option<nat>>) returns (all: bool)
    ensures all <==> AllSet(output[..])
  {
    var i := 0;
    while i < output.Length
      invariant 0 <= i <= output.Length
      invariant forall j :: 0 <= j < i ==> output[j].Some?
    {
      if output[i].None? {
        return false;
      }
      i := i + 1;
    }
    return true;
  }

  method Join(output: array<Option<nat>>) returns (r: seq<nat>)
    requires forall i :: 0 <= i < output.Length ==> output[i].Some?
    ensures |r| == output.Length && forall i :: 0 <= i < |r| ==> Some(r[i]) == output[i]
  {
    r := [];
    var i := 0;
    while i < output.Length
      invariant 0 <= i <= output.Length && |r| == i
      invariant forall j :: 0 <= j < i ==> Some(r[j]) == output[j]
    {
      r := r + [output[i].value];
      i := i + 1;
    }
  }

  // What has been stored is right.
  predicate Right(output: seq<Option<nat>>, input: seq<nat>)
    requires |output| == |input|
  {
    forall i :: 0 <= i < |input| && output[i].Some? ==> input[i] < 128 && output[i].value == Rotate(input[i], 13)
  }

  // The first k answers have been stored.
  predicate Stored(output: seq<Option<nat>>, arrivals: seq<Job>, k: nat)
    requires k <= |arrivals|
  {
    forall j :: 0 <= j < k ==> Index(arrivals[j]) < |output| && output[Index(arrivals[j])].Some?
  }

  lemma AllStored(output: seq<Option<nat>>, input: seq<nat>, arrivals: seq<Job>)
    requires |output| == |input| && Stored(output, arrivals, |arrivals|)
    requires multiset(arrivals) == multiset(Answers(Jobs(input)))
    ensures forall i :: 0 <= i < |input| && input[i] < 128 ==> output[i].Some?
  {
    forall i | 0 <= i < |input| && input[i] < 128 ensures output[i].Some? {
      LetterArrives(input, arrivals, i);
    }
  }

  lemma ArrivalIsGenuine(input: seq<nat>, arrivals: seq<Job>, k: nat)
    requires multiset(arrivals) == multiset(Answers(Jobs(input))) && k < |arrivals|
    ensures var i := Index(arrivals[k]); i < |input| && input[i] < 128 && arrivals[k].code == Rotate(input[i], 13)
  {
    assert arrivals[k] in multiset(arrivals);
    AnswerIsGenuine(input, arrivals[k]);
  }

  lemma StaysStored(output: seq<Option<nat>>, arrivals: seq<Job>, k: nat, v: nat)
    requires k < |arrivals| && Stored(output, arrivals, k) && Index(arrivals[k]) < |output|
    ensures Stored(output[Index(arrivals[k]) := Some(v)], arrivals, k + 1)
  {
  }

  lemma StaysRight(output: seq<Option<nat>>, input: seq<nat>, i: nat)
    requires |output| == |input| && Right(output, input) && i < |input| && input[i] < 128
    ensures Right(output[i := Some(Rotate(input[i], 13))], input)
  {
  }

  predicate AllSet(output: seq<Option<nat>>) {
    forall i :: 0 <= i < |output| ==> output[i].Some?
  }

  // The result when the loop ends with everything set, and when the answers run out before.
  lemma Outcome(output: seq<Option<nat>>, input: seq<nat>, arrivals: seq<Job>, k: nat)
    requires |output| == |input| && k <= |arrivals| && Right(output, input) && Stored(output, arrivals, k)
    requires multiset(arrivals) == multiset(Answers(Jobs(input)))
    ensures AllSet(output) && k > 0 ==> input != [] && Ascii(input)
    ensures k == |arrivals| && input != [] && Ascii(input) ==> AllSet(output) && k > 0
  {
    if k > 0 {
      assert Index(arrivals[0]) < |output|;
    }
    if k == |arrivals| {
      AllStored(output, input, arrivals);
      if input != [] && Ascii(input) {
        LetterArrives(input, arrivals, 0);
      }
    }
  }

  // One turn of the receiving loop: an answer is stored at its own position.
  method Store(output: array<Option<nat>>, ghost input: seq<nat>, arrivals: seq<Job>, k: nat)
    requires multiset(arrivals) == multiset(Answers(Jobs(input))) && k < |arrivals| && output.Length == |input|
    requires Right(output[..], input) && Stored(output[..], arrivals, k)
    modifies output
    ensures Right(output[..], input) && Stored(output[..], arrivals, k + 1)
  {
    ghost var before := output[..];
    var p := Index(arrivals[k]);
    ArrivalIsGenuine(input, arrivals, k);
    StaysRight(before, input, p);
    StaysStored(before, arrivals, k, arrivals[k].code);
    output[p] := Some(arrivals[k].code);
    assert output[..] == before[p := Some(arrivals[k].code)];
  }

  // The receiving loop of process(): `every` stays false when the answers run out first.
  method Fill(output: array<Option<nat>>, ghost input: seq<nat>, arrivals: seq<Job>) returns (every: bool)
    requires multiset(arrivals) == multiset(Answers(Jobs(input)))
    requires output.Length == |input| && forall i :: 0 <= i < output.Length ==> output[i] == None
    modifies output
    ensures Right(output[..], input)
    ensures every ==> AllSet(output[..])
    ensures every <==> input != [] && Ascii(input)
  {
    every := false;
    var k := 0;
    while k < |arrivals| && !every
      invariant 0 <= k <= |arrivals|
      invariant Right(output[..], input) && Stored(output[..], arrivals, k)
      invariant every <==> k > 0 && AllSet(output[..])
    {
      Store(output, input, arrivals, k);
      k := k + 1;
      every := Every(output);
    }
    Outcome(output[..], input, arrivals, k);
  }

  // process(), for the answers in any order. It ends with the ROT13 of the text if and only if the
  // text is not empty and all ASCII; otherwise it waits for ever (None).
  method Gather(input: seq<nat>, arrivals: seq<Job>) returns (r: Option<seq<nat>>)
    requires multiset(arrivals) == multiset(Answers(Jobs(input)))
    ensures r == if input != [] && Ascii(input) then Some(Rot13(input)) else None
    ensures r.Some? ==> |r.value| == |input| && forall i :: 0 <= i < |input| ==> Shifted(input[i], r.value[i], 13)
  {
    var output := new Option<nat>[|input|](_ => None);
    var every := Fill(output, input, arrivals);
    if every {
      var text := Join(output);
      assert text == Rot13(input);
      forall i | 0 <= i < |input| ensures Shifted(input[i], text[i], 13) {
        RotateIff(input[i], text[i], 13);
      }
      return Some(text);
    }
    return None;
  }
}
