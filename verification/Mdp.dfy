/** The message envelopes of the Majordomo protocol (ZeroMQ RFC 7/MDP, "MDP/Client" and
    "MDP/Worker") as the example encodes and decodes them: by the position of the frames. */
module Mdp {
  import opened Common

  type Frames = seq<Frame>

  // "MDPC01" and "MDPW01".
  const CLIENT: Frame := [0x4D, 0x44, 0x50, 0x43, 0x30, 0x31]
  const WORKER: Frame := [0x4D, 0x44, 0x50, 0x57, 0x30, 0x31]

  const READY: Frame := [1]
  const REQUEST: Frame := [2]
  const REPLY: Frame := [3]
  const DISCONNECT: Frame := [5]

  const EMPTY: Frame := []

  // What the broker makes of a message. The last three have too few frames for what they say they are.
  datatype Inbound =
    | ClientRequest(client: Frame, service: Frame, body: Frames)
    | WorkerReady(worker: Frame, service: Frame)
    | WorkerReply(worker: Frame, client: Frame, body: Frames)
    | WorkerDisconnect(worker: Frame)
    | Ignored
    | ReadyWithoutService(worker: Frame)
    | ReplyWithoutClient(worker: Frame)
    | Truncated

  function Rest(frames: Frames, n: nat): Frames {
    if n <= |frames| then frames[n..] else []
  }

  // The receive loop, handleClient and handleWorker of the broker.
  function BrokerDecode(frames: Frames): Inbound {
    if |frames| < 3 then Truncated
    else
      var sender, header, rest := frames[0], frames[2], frames[3..];
      if header == CLIENT then
        if rest == [] then Ignored else ClientRequest(sender, rest[0], rest[1..])
      else if header == WORKER then
        if rest == [] then Ignored
        else if rest[0] == READY then
          if |rest| == 1 then ReadyWithoutService(sender) else WorkerReady(sender, rest[1])
        else if rest[0] == REPLY then
          if |rest| == 1 then ReplyWithoutClient(sender) else WorkerReply(sender, rest[1], Rest(rest, 3))
        else if rest[0] == DISCONNECT then WorkerDisconnect(sender)
        else Ignored
      else Ignored
  }

  // What each side hands to its socket.
  function ClientSends(service: Frame, body: Frames): Frames { [CLIENT, service] + body }

  function WorkerSendsReady(service: Frame): Frames { [EMPTY, WORKER, READY, service] }

  function WorkerSendsReply(client: Frame, body: Frames): Frames { [EMPTY, WORKER, REPLY, client, EMPTY] + body }

  function WorkerSendsDisconnect(service: Frame): Frames { [EMPTY, WORKER, DISCONNECT, service] }

  function BrokerSendsRequest(worker: Frame, client: Frame, body: Frames): Frames {
    [worker, EMPTY, WORKER, REQUEST, client, EMPTY] + body
  }

  function BrokerSendsReply(client: Frame, service: Frame, body: Frames): Frames {
    [client, EMPTY, CLIENT, service] + body
  }

  // What the sockets add and remove. A request socket puts an empty frame in front; a router puts
  // the identity of the sender in front of what it receives and takes the receiver's off what it sends.
  function RequestSocket(frames: Frames): Frames { [EMPTY] + frames }

  function RequestSocketReceives(frames: Frames): Frames { Rest(frames, 1) }

  function RouterReceives(sender: Frame, frames: Frames): Frames { [sender] + frames }

  function RouterSends(frames: Frames): Frames { Rest(frames, 1) }

  // A part that is undefined is sent as the text "undefined".
  const UNDEFINED: Frame := [0x75, 0x6E, 0x64, 0x65, 0x66, 0x69, 0x6E, 0x65, 0x64]

  // What worker.ts and the client of index.ts take out of a message.
  datatype Job = Job(client: Frame, body: Frames)

  function WorkerDecode(frames: Frames): Job {
    Job(if |frames| > 3 then frames[3] else UNDEFINED, Rest(frames, 5))
  }

  function ClientDecode(frames: Frames): Frames { Rest(frames, 2) }

  // ----- properties --------------------------------------------------------------------------------

  lemma RestOf(head: Frames, body: Frames)
    ensures Rest(head + body, |head|) == body
  {
  }

  predicate Spells(frame: Frame, text: string) {
    |frame| == |text| && forall i :: 0 <= i < |frame| ==> frame[i] as int == text[i] as int
  }

  // The names and codes of the protocol.
  lemma CodesOfTheProtocol()
    ensures Spells(CLIENT, "MDPC01") && Spells(WORKER, "MDPW01")
    ensures Spells(READY, "\U{1}") && Spells(REQUEST, "\U{2}") && Spells(REPLY, "\U{3}") && Spells(DISCONNECT, "\U{5}")
  {
  }

  // What the broker puts on the wire, frame by frame: to a worker, and to a client.
  lemma WhatTheBrokerSends(worker: Frame, client: Frame, service: Frame, body: Frames)
    ensures var f := RouterSends(BrokerSendsRequest(worker, client, body));
      && |f| == 5 + |body| && f[0] == [] && Spells(f[1], "MDPW01") && Spells(f[2], "\U{2}")
      && f[3] == client && f[4] == []
      && forall k :: 0 <= k < |body| ==> f[5 + k] == body[k]
    ensures var f := RouterSends(BrokerSendsReply(client, service, body));
      && |f| == 3 + |body| && f[0] == [] && Spells(f[1], "MDPC01") && f[2] == service
      && forall k :: 0 <= k < |body| ==> f[3 + k] == body[k]
  {
    CodesOfTheProtocol();
    assert RouterSends(BrokerSendsRequest(worker, client, body)) == [EMPTY, WORKER, REQUEST, client, EMPTY] + body;
    assert RouterSends(BrokerSendsReply(client, service, body)) == [EMPTY, CLIENT, service] + body;
  }

  lemma CodesDiffer()
    ensures CLIENT != WORKER && READY != REPLY && READY != DISCONNECT && REPLY != DISCONNECT
  {
    assert CLIENT[3] != WORKER[3] && READY[0] != REPLY[0] && READY[0] != DISCONNECT[0] && REPLY[0] != DISCONNECT[0];
  }

  lemma DecodesRequest(sender: Frame, service: Frame, body: Frames)
    ensures BrokerDecode([sender, EMPTY, CLIENT, service] + body) == ClientRequest(sender, service, body)
  {
    var a := [sender, EMPTY, CLIENT, service] + body;
    assert a[3..] == [service] + body && a[3..][1..] == body;
  }

  lemma DecodesWorker(sender: Frame, kind: Frame, rest: Frames)
    requires kind == READY || kind == REPLY || kind == DISCONNECT
    ensures BrokerDecode([sender, EMPTY, WORKER, kind] + rest) ==
      if kind == DISCONNECT then WorkerDisconnect(sender)
      else if kind == READY then if rest == [] then ReadyWithoutService(sender) else WorkerReady(sender, rest[0])
      else if rest == [] then ReplyWithoutClient(sender) else WorkerReply(sender, rest[0], Rest(rest, 2))
  {
    CodesDiffer();
    var a := [sender, EMPTY, WORKER, kind] + rest;
    var r := a[3..];
    assert r == [kind] + rest;
    assert |r| >= 3 ==> r[3..] == rest[2..];
  }

  // The broker understands what clients and workers send.
  lemma BrokerUnderstands(sender: Frame, service: Frame, client: Frame, body: Frames)
    ensures BrokerDecode(RouterReceives(sender, RequestSocket(ClientSends(service, body))))
         == ClientRequest(sender, service, body)
    ensures BrokerDecode(RouterReceives(sender, WorkerSendsReady(service))) == WorkerReady(sender, service)
    ensures BrokerDecode(RouterReceives(sender, WorkerSendsReply(client, body))) == WorkerReply(sender, client, body)
    ensures BrokerDecode(RouterReceives(sender, WorkerSendsDisconnect(service))) == WorkerDisconnect(sender)
  {
    UnderstandsRequest(sender, service, body);
    UnderstandsReply(sender, client, body);
    CodesDiffer();
    DecodesWorker(sender, READY, [service]);
    DecodesWorker(sender, DISCONNECT, [service]);
    assert RouterReceives(sender, WorkerSendsReady(service)) == [sender, EMPTY, WORKER, READY] + [service];
    assert RouterReceives(sender, WorkerSendsDisconnect(service)) == [sender, EMPTY, WORKER, DISCONNECT] + [service];
  }

  lemma UnderstandsRequest(sender: Frame, service: Frame, body: Frames)
    ensures BrokerDecode(RouterReceives(sender, RequestSocket(ClientSends(service, body))))
         == ClientRequest(sender, service, body)
  {
    DecodesRequest(sender, service, body);
    assert RouterReceives(sender, RequestSocket(ClientSends(service, body))) == [sender, EMPTY, CLIENT, service] + body;
  }

  lemma UnderstandsReply(sender: Frame, client: Frame, body: Frames)
    ensures BrokerDecode(RouterReceives(sender, WorkerSendsReply(client, body))) == WorkerReply(sender, client, body)
  {
    var rest := [client, EMPTY] + body;
    CodesDiffer();
    DecodesWorker(sender, REPLY, rest);
    RestOf([client, EMPTY], body);
    assert RouterReceives(sender, WorkerSendsReply(client, body)) == [sender, EMPTY, WORKER, REPLY] + rest;
  }

  lemma RestOfRest(frames: Frames)
    requires |frames| >= 4
    ensures frames[3..][1..] == frames[4..] && Rest(frames[3..], 3) == Rest(frames, 6)
  {
  }

  // And it takes nothing else for such a message: only the blank frames may differ, and a reply may
  // come without the blank frame before its empty body.
  lemma BrokerDecodesOnly(frames: Frames, sender: Frame, service: Frame, client: Frame, body: Frames)
    ensures BrokerDecode(frames) == ClientRequest(sender, service, body) <==>
              |frames| >= 4 && frames == [sender, frames[1], CLIENT, service] + body
    ensures BrokerDecode(frames) == WorkerReady(sender, service) <==>
              |frames| >= 5 && frames[..5] == [sender, frames[1], WORKER, READY, service]
    ensures BrokerDecode(frames) == WorkerReply(sender, client, body) <==>
              |frames| >= 5 && frames[..5] == [sender, frames[1], WORKER, REPLY, client] && body == Rest(frames, 6)
    ensures BrokerDecode(frames) == WorkerDisconnect(sender) <==>
              |frames| >= 4 && frames[..4] == [sender, frames[1], WORKER, DISCONNECT]
  {
    CodesDiffer();
    if |frames| >= 4 {
      RestOfRest(frames);
      assert frames == [frames[0], frames[1], frames[2], frames[3]] + frames[4..];
      assert frames[..4] == [frames[0], frames[1], frames[2], frames[3]];
    }
    if |frames| >= 5 {
      assert frames[..5] == [frames[0], frames[1], frames[2], frames[3], frames[4]];
    }
    RestOf([sender, EMPTY, CLIENT, service], body);
  }

  // The worker and the client understand what the broker sends.
  lemma WorkerUnderstands(worker: Frame, client: Frame, body: Frames)
    ensures WorkerDecode(RouterSends(BrokerSendsRequest(worker, client, body))) == Job(client, body)
  {
    var head := [EMPTY, WORKER, REQUEST, client, EMPTY];
    var frames := RouterSends(BrokerSendsRequest(worker, client, body));
    assert frames == head + body && frames[3] == client;
    RestOf(head, body);
  }

  lemma ClientUnderstands(client: Frame, service: Frame, body: Frames)
    ensures ClientDecode(RequestSocketReceives(RouterSends(BrokerSendsReply(client, service, body)))) == body
  {
    assert RouterSends(BrokerSendsReply(client, service, body)) == [EMPTY, CLIENT, service] + body;
    assert RequestSocketReceives([EMPTY, CLIENT, service] + body) == [CLIENT, service] + body;
    RestOf([CLIENT, service], body);
  }

  // From the client through the broker to the worker's process(), and back to the client: the
  // payloads arrive unchanged, whatever they are, at the worker and the client they are meant for.
  lemma EnvelopeRoundTrip(client: Frame, worker: Frame, service: Frame, body: Frames, result: Frames)
    ensures var request := BrokerDecode(RouterReceives(client, RequestSocket(ClientSends(service, body))));
      && request.ClientRequest? && request.service == service
      && var job := WorkerDecode(RouterSends(BrokerSendsRequest(worker, request.client, request.body)));
         && job == Job(client, body)
         && var reply := BrokerDecode(RouterReceives(worker, WorkerSendsReply(job.client, result)));
            && reply == WorkerReply(worker, client, result)
            && BrokerSendsReply(reply.client, service, reply.body)[0] == client
            && ClientDecode(RequestSocketReceives(RouterSends(BrokerSendsReply(reply.client, service, reply.body))))
               == result
  {
    BrokerUnderstands(client, service, client, body);
    BrokerUnderstands(worker, service, client, result);
    WorkerUnderstands(worker, client, body);
    ClientUnderstands(client, service, result);
  }
}
