/**
  The handler object of one SSH connection (src/ssh/session.rs) and the loop of its writer tasks,
  each callback tied to the transition of `Sessions` it stands for.
 */
module SessionHandlers {
  import opened Prelude
  import opened AuthorizedKeys
  import opened Sessions
  import L = Lifecycle
  import Decimal

  class SessionHandler {
    var vmId: Option<L.Id>
    var udsWriter: Option<nat>
    var channelId: Option<nat>
    var relays: seq<Relay>          // the channels and tasks the handler has spawned
    var pending: Option<L.Id>       // the shell request between its two halves
    var key: Option<PublicKey>      // history
    var inbox: seq<Bytes>           // history

    function State(): Session
      reads this
    {
      Session(vmId, key, channelId, pending, relays, udsWriter, inbox, false)
    }

    ghost predicate Valid()
      reads this
    {
      Streams(State()) && (vmId.Some? <==> key.Some?) && (pending.Some? ==> pending == vmId)
    }

    constructor ()
      ensures Valid() && State() == NewSession()
    {
      vmId, udsWriter, channelId, pending := None, None, None, None;
      relays, key, inbox := [], None, [];
    }

    /**
      Accepts exactly a running VM's own keys; every other case leaves the handler as it was. The
      library runs the callbacks of a connection one at a time.
     */
    method AuthPublickey(vms: map<L.Id, L.Entry>, decode: Decoder, uuid: UuidParser, user: string, offered: PublicKey)
      returns (auth: Auth)
      requires Valid() && pending.None?
      modifies this
      ensures Valid()
      ensures auth == AuthResult(vms, decode, uuid, user, offered)
      ensures State() == OnAuth(old(State()), vms, decode, uuid, user, offered)
    {
      EventKeepsStreams(State(), vms, decode, uuid, Authenticate(user, offered));
      match ParseUser(uuid, user)
      case Err(_) =>
        auth := BadUser;
      case Ok(None) =>
        auth := Reject;
      case Ok(Some(id)) =>
        if id !in vms || vms[id].Creating? {
          auth := Reject;
        } else {
          var granted := IsKeyAuthorized(decode, offered, vms[id].cfg.sshKeys);
          if granted == Ok(true) {
            vmId, key := Some(id), Some(offered);
            auth := Accept;
          } else {
            auth := Reject;
          }
        }
    }

    method ChannelOpenSession(channel: nat)
      requires Valid()
      modifies this
      ensures Valid()
      ensures State() == old(State()).(channel := Some(channel))
    {
      channelId := Some(channel);
      assert forall k :: 0 <= k < |relays| ==> old(StreamOk(State(), k)) && Until(State(), k) == old(Until(State(), k));
      forall k | 0 <= k < |relays|
        ensures StreamOk(State(), k)
      {
        SameStream(old(State()), State(), k);
      }
    }

    /** First half of a shell request: what the map says under its lock. */
    method LookUp(vms: map<L.Id, L.Entry>) returns (r: Result<L.Id, ShellError>)
      requires Valid() && pending.None?
      modifies this`pending
      ensures Valid()
      ensures r == LookupResult(old(State()), vms) && State() == OnLookup(old(State()), vms)
    {
      LookupKeepsStreams(State(), vms);
      if vmId.None? { return Err(NoVmSelected); }
      if channelId.None? { return Err(NoChannel); }
      if vmId.value !in vms { return Err(VmNotFound); }
      if vms[vmId.value].Creating? { return Err(VmStillCreating); }
      pending := vmId;
      return Ok(vmId.value);
    }

    /** Second half, whatever the writer tasks did in between: handshake and a fresh channel. */
    method Connect(reply: Reply) returns (r: Result<(), ShellError>)
      requires Valid() && pending.Some?
      modifies this
      ensures Valid()
      ensures r == ConnectResult(reply) && State() == OnConnect(old(State()), reply)
    {
      ConnectKeepsStreams(State(), reply);
      var vm := pending.value;
      pending := None;
      r := ConnectResult(reply);
      if r.Ok? {
        udsWriter := Some(|relays|);
        relays := relays + [Relay(vm, key.value, |inbox|, [], [], Ascii(CONNECT), Writing)];
      }
    }

    /** The whole request; any failure leaves the previous channel in place. */
    method ShellRequest(vms: map<L.Id, L.Entry>, reply: Reply) returns (r: Result<(), ShellError>)
      requires Valid() && pending.None?
      modifies this
      ensures Valid() && pending.None?
      ensures match LookupResult(old(State()), vms)
              case Err(e) => r == Err(e) && State() == old(State())
              case Ok(_) => r == ConnectResult(reply) && State() == OnConnect(OnLookup(old(State()), vms), reply)
    {
      var looked := LookUp(vms);
      if looked.Err? { return Err(looked.error); }
      r := Connect(reply);
    }

    /** Sends to the current channel, if there is one whose receiver lives. */
    method Send(m: Bytes)
      requires Valid()
      modifies this`relays, this`inbox
      ensures Valid()
      ensures State() == OnMessage(old(State()), m)
    {
      MessageKeepsStreams(State(), m);
      if udsWriter.Some? && relays[udsWriter.value].task.Writing? {
        var k := udsWriter.value;
        relays := relays[k := relays[k].(queue := relays[k].queue + [m])];
      }
      inbox := inbox + [m];
    }

    method Data(data: Bytes)
      requires Valid()
      modifies this`relays, this`inbox
      ensures Valid()
      ensures State() == OnMessage(old(State()), data)
    {
      Send(data);
    }

    /** The escape sequence ESC[8;rows;colst. */
    method WindowChangeRequest(cols: u32, rows: u32)
      requires Valid()
      modifies this`relays, this`inbox
      ensures Valid()
      ensures State() == OnMessage(old(State()), ResizeMessage(cols, rows))
    {
      var resize := Ascii(RESIZE + Decimal.Print(rows) + ";" + Decimal.Print(cols) + "t");
      Send(resize);
    }

    /**
      The writer loop, until it has to wait or ends, on a socket that takes `room` more bytes. It
      fails exactly when not everything sent so far fits; otherwise the socket has the whole stream,
      and the task waits for more if its sender is still there and has ended if not.
     */
    method WriterTask(k: nat, room: nat) returns (failed: bool)
      requires Valid() && k < |relays| && relays[k].task.Writing? && InRange(State(), k)
      modifies this`relays
      ensures Valid() && |relays| == old(|relays|)
      ensures forall j :: 0 <= j < |relays| && j != k ==> relays[j] == old(relays[j])
      ensures InRange(State(), k) && Stream(State(), k) == old(Stream(State(), k))
      ensures var stream, limit := Stream(State(), k), old(|relays[k].written|) + room;
              && (failed <==> |stream| > limit)
              && relays[k].task == (if failed then Broken else if udsWriter == Some(k) then Writing else Ended)
              && relays[k].written == if failed then stream[..limit] else stream
    {
      ghost var stream := Stream(State(), k);
      var left: nat := room;
      while true
        invariant Valid() && |relays| == old(|relays|)
        invariant forall j :: 0 <= j < |relays| && j != k ==> relays[j] == old(relays[j])
        invariant InRange(State(), k) && Stream(State(), k) == stream
        invariant relays[k].task.Writing? && |relays[k].written| + left == old(|relays[k].written|) + room
        decreases |relays[k].queue|, |relays[k].chunk|
      {
        var ok: bool;
        ok, left := WriteAll(k, left);
        if !ok { return true; }
        if relays[k].queue == [] {
          assert StreamOk(State(), k);
          FullyWritten(relays[k], stream);
          if udsWriter != Some(k) { Step(k, Hangup); }
          return false;
        }
        Step(k, Recv);
      }
    }

    /** `write_all` of the message in hand, on a socket that takes `room` more bytes. */
    method WriteAll(k: nat, room: nat) returns (ok: bool, left: nat)
      requires Valid() && k < |relays| && relays[k].task.Writing? && InRange(State(), k)
      modifies this`relays
      ensures Valid() && |relays| == old(|relays|)
      ensures forall j :: 0 <= j < |relays| && j != k ==> relays[j] == old(relays[j])
      ensures InRange(State(), k) && Stream(State(), k) == old(Stream(State(), k))
      ensures ok ==> relays[k] == old(relays[k]).(chunk := [], written := old(relays[k].written + relays[k].chunk))
                     && left == room - old(|relays[k].chunk|)
      ensures !ok ==> relays[k].task.Broken? && |relays[k].written| == old(|relays[k].written|) + room
                      && |relays[k].written| < |Stream(State(), k)|
                      && relays[k].written == Stream(State(), k)[..|relays[k].written|]
    {
      var r := relays[k];
      var n := if |r.chunk| <= room then |r.chunk| else room;
      Step(k, Put(n));
      assert r.chunk[..n] + r.chunk[n..] == r.chunk;
      ok, left := relays[k].chunk == [], room - n;
      if !ok {
        assert StreamOk(State(), k);
        PartlyWritten(relays[k], Stream(State(), k));
        Step(k, Fail);
      }
    }

    method Step(k: nat, w: Write)
      requires Valid() && Writable(State(), k, w) && InRange(State(), k)
      modifies this`relays
      ensures Valid() && State() == OnWrite(old(State()), k, w)
      ensures InRange(State(), k) && Stream(State(), k) == old(Stream(State(), k))
    {
      WriteKeepsStreams(State(), k, w);
      var r := relays[k];
      match w {
      case Recv => relays := relays[k := r.(chunk := r.queue[0], queue := r.queue[1..])];
      case Put(n) => relays := relays[k := r.(chunk := r.chunk[n..], written := r.written + r.chunk[..n])];
      case Fail => relays := relays[k := r.(task := Broken)];
      case Hangup => relays := relays[k := r.(task := Ended)];
      }
      SameStream(old(State()), State(), k);
    }
  }

  lemma FullyWritten(r: Relay, stream: Bytes)
    requires BytesOk(r, stream) && r.task.Writing? && r.chunk == [] && r.queue == []
    ensures r.written == stream
  {
    assert r.written + ([] + Concat([])) == r.written;
  }

  lemma PartlyWritten(r: Relay, stream: Bytes)
    requires BytesOk(r, stream) && r.task.Writing? && r.chunk != []
    ensures |r.written| < |stream| && r.written == stream[..|r.written|]
  {
  }

  lemma LookupKeepsStreams(s: Session, vms: map<L.Id, L.Entry>)
    requires Streams(s)
    ensures Streams(OnLookup(s, vms))
  {
    var s' := OnLookup(s, vms);
    forall k | 0 <= k < |s.relays|
      ensures StreamOk(s', k)
    {
      assert StreamOk(s, k) && Until(s', k) == Until(s, k);
    }
  }
}
