/**
  SSH console sessions (src/ssh/session.rs): the callbacks of one client, the writer tasks they
  spawn, and the byte stream each shell's vsock socket receives.
 */
module Sessions {
  import opened Prelude
  import opened Text
  import opened AuthorizedKeys
  import L = Lifecycle
  import Decimal

  type Bytes = seq<u8>

  function Ascii(s: string): (r: Bytes)
    ensures |r| == |s| && forall i :: 0 <= i < |s| && s[i] as int < 0x100 ==> r[i] == s[i] as int
  {
    seq(|s|, i requires 0 <= i < |s| => s[i] as int % 0x100)
  }

  function Concat(chunks: seq<Bytes>): Bytes {
    if chunks == [] then [] else chunks[0] + Concat(chunks[1..])
  }

  const CONNECT: string := "CONNECT 1024\n"

  /** One shell: the queue of an unbounded channel, and the writer task that empties it into the socket. */
  datatype Relay = Relay(
    vm: L.Id,
    key: PublicKey,          // the key of the authentication the relay rests on
    from: nat,               // how many messages the client had sent when it was opened
    queue: seq<Bytes>,
    chunk: Bytes,            // what write_all still has to write of the message in hand
    written: Bytes,          // everything on the socket
    task: WriterTask
  )

  /** Running, ended because nothing more can come, or ended by a write error. */
  datatype WriterTask = Writing | Ended | Broken

  /** The handler's fields, its relays, and the client's messages so far. */
  datatype Session = Session(
    vmId: Option<L.Id>,
    key: Option<PublicKey>,      // key of the last accepted authentication
    channel: Option<nat>,
    pending: Option<L.Id>,       // a shell request has looked the VM up and is connecting
    relays: seq<Relay>,
    current: Option<nat>,        // which relay uds_writer sends to
    inbox: seq<Bytes>,           // data and resize messages received
    closed: bool                 // the connection is gone and the handler dropped
  )

  function NewSession(): Session {
    Session(None, None, None, None, [], None, [], false)
  }

  // ── Callbacks ──

  datatype Auth = Accept | Reject | BadUser

  type UuidParser = string -> Option<L.Id>

  predicate IsVmUser(user: string) {
    |user| >= 3 && user[0] == 'v' && user[1] == 'm' && user[2] == '-'
  }

  /** `vm-{uuid}`; another form is rejected, a malformed UUID is an error. */
  function ParseUser(uuid: UuidParser, user: string): (r: Result<Option<L.Id>, ()>)
    ensures r == Ok(None) <==> !IsVmUser(user)
    ensures IsVmUser(user) ==> r == match uuid(user[3..]) case None => Err(()) case Some(id) => Ok(Some(id))
  {
    if !StartsWith(user, "vm-") then Ok(None)
    else
      match uuid(user[3..])
      case None => Err(())
      case Some(id) => Ok(Some(id))
  }

  function AuthResult(vms: map<L.Id, L.Entry>, decode: Decoder, uuid: UuidParser, user: string, key: PublicKey): Auth {
    match ParseUser(uuid, user)
    case Err(_) => BadUser
    case Ok(None) => Reject
    case Ok(Some(id)) =>
      if id in vms && vms[id].Running? && Authorized(decode, key, vms[id].cfg.sshKeys) then Accept else Reject
  }

  function OnAuth(s: Session, vms: map<L.Id, L.Entry>, decode: Decoder, uuid: UuidParser,
                  user: string, key: PublicKey): Session
  {
    if AuthResult(vms, decode, uuid, user, key).Accept? then
      s.(vmId := ParseUser(uuid, user).value, key := Some(key))
    else s
  }

  datatype ShellError = NoVmSelected | NoChannel | VmNotFound | VmStillCreating | ConnectFailed | HandshakeFailed

  function LookupResult(s: Session, vms: map<L.Id, L.Entry>): Result<L.Id, ShellError> {
    if s.vmId.None? then Err(NoVmSelected)
    else if s.channel.None? then Err(NoChannel)
    else if s.vmId.value !in vms then Err(VmNotFound)
    else if vms[s.vmId.value].Creating? then Err(VmStillCreating)
    else Ok(s.vmId.value)
  }

  /** First half of a shell request, under the `vms` lock. */
  function OnLookup(s: Session, vms: map<L.Id, L.Entry>): Session {
    match LookupResult(s, vms)
    case Ok(id) => s.(pending := Some(id))
    case Err(_) => s
  }

  /** What the socket answers: no connection, or the first bytes read back. */
  datatype Reply = Unreachable | NotUtf8 | Answer(text: string)

  predicate IsOk(reply: Reply) {
    reply.Answer? && |reply.text| >= 3 && reply.text[0] == 'O' && reply.text[1] == 'K' && reply.text[2] == ' '
  }

  /** A shell opens exactly when the first bytes read back are text that begins with OK and a space. */
  function ConnectResult(reply: Reply): (r: Result<(), ShellError>)
    ensures r.Ok? <==> IsOk(reply)
    ensures r == Err(ConnectFailed) <==> reply.Unreachable?
  {
    match reply
    case Unreachable => Err(ConnectFailed)
    case NotUtf8 => Err(HandshakeFailed)
    case Answer(text) => if StartsWith(text, "OK ") then Ok(()) else Err(HandshakeFailed)
  }

  /** Second half: connect, handshake, and replace `uds_writer` by a new channel. */
  function OnConnect(s: Session, reply: Reply): Session
    requires s.pending.Some? && s.key.Some?
  {
    var s1 := s.(pending := None);
    if ConnectResult(reply).Err? then s1
    else
      s1.(relays := s.relays + [Relay(s.pending.value, s.key.value, |s.inbox|, [], [], Ascii(CONNECT), Writing)],
          current := Some(|s.relays|))
  }

  const RESIZE: string := [27 as char] + "[8;"

  function ResizeText(cols: u32, rows: u32): string {
    RESIZE + Decimal.Print(rows) + ";" + Decimal.Print(cols) + "t"
  }

  function ResizeMessage(cols: u32, rows: u32): Bytes {
    Ascii(ResizeText(cols, rows))
  }

  /** The terminal's reading of the sequence CSI 8 ; height ; width t. */
  function ReadResize(s: string): Option<(nat, nat)> {
    if |s| <= 4 || s[0] as int != 27 || s[1] != '[' || s[2] != '8' || s[3] != ';' || s[|s| - 1] != 't' then None
    else
      var body := s[4..|s| - 1];
      match Find(body, ";")
      case None => None
      case Some(k) =>
        if Decimal.AllDigits(body[..k]) && Decimal.AllDigits(body[k + 1..])
        then Some((Decimal.Value(body[..k]), Decimal.Value(body[k + 1..]))) else None
  }

  lemma FindSemicolon(a: string, b: string)
    requires Decimal.AllDigits(a)
    ensures Find(a + ";" + b, ";") == Some(|a|)
  {
    var s := a + ";" + b;
    var r := Find(s, ";");
    assert StartsWith(s[|a|..], ";") by { assert s[|a|] == ';'; }
    assert forall j :: 0 <= j < |a| ==> s[j..j + 1][0] == a[j];
    assert s[r.value..r.value + 1][0] == ';';
  }

  /** The guest's terminal reads back the size the client announced. */
  lemma ResizeRoundTrip(cols: u32, rows: u32)
    ensures ReadResize(ResizeText(cols, rows)) == Some((rows, cols))
  {
    var h, w := Decimal.Print(rows), Decimal.Print(cols);
    var s := ResizeText(cols, rows);
    assert s[..|RESIZE|] == RESIZE;
    assert s == RESIZE + (h + ";" + w) + "t";
    FindSemicolon(h, w);
    assert (h + ";" + w)[..|h|] == h && (h + ";" + w)[|h| + 1..] == w;
    Decimal.ValueOfPrint(rows);
    Decimal.ValueOfPrint(cols);
  }

  /** Data and resizes alike go to the current relay's queue; a dead receiver drops them. */
  function OnMessage(s: Session, m: Bytes): Session {
    var s1 := s.(inbox := s.inbox + [m]);
    if s.current.Some? && s.current.value < |s.relays| && s.relays[s.current.value].task.Writing? then
      var k := s.current.value;
      s1.(relays := s.relays[k := s.relays[k].(queue := s.relays[k].queue + [m])])
    else s1
  }

  // ── The writer task ──

  datatype Write =
    | Recv              // rx.recv() yields the next message
    | Put(n: nat)       // the socket takes n more bytes
    | Fail              // a write error ends the task
    | Hangup            // the sender is gone and the queue empty

  function Writable(s: Session, k: nat, w: Write): bool {
    && k < |s.relays| && s.relays[k].task.Writing?
    && var r := s.relays[k];
       match w
       case Recv => r.chunk == [] && r.queue != []
       case Put(n) => n <= |r.chunk|
       case Fail => true
       case Hangup => r.chunk == [] && r.queue == [] && s.current != Some(k)
  }

  function OnWrite(s: Session, k: nat, w: Write): Session
    requires Writable(s, k, w)
  {
    var r := s.relays[k];
    var r' := match w
      case Recv => r.(chunk := r.queue[0], queue := r.queue[1..])
      case Put(n) => r.(chunk := r.chunk[n..], written := r.written + r.chunk[..n])
      case Fail => r.(task := Broken)
      case Hangup => r.(task := Ended);
    s.(relays := s.relays[k := r'])
  }

  // ── Events ──

  datatype Event =
    | Authenticate(user: string, offered: PublicKey)
    | OpenChannel(channel: nat)
    | ShellLookup
    | ShellConnect(reply: Reply)
    | Message(bytes: Bytes)
    | Resize(cols: u32, rows: u32)
    | Disconnect
    | Writer(k: nat, w: Write)

  /** Callbacks of one connection run one at a time; only writer tasks run beside a pending shell request. */
  predicate Allowed(s: Session, e: Event) {
    match e
    case ShellConnect(_) => !s.closed && s.pending.Some? && s.key.Some?
    case Disconnect => !s.closed
    case Writer(k, w) => Writable(s, k, w)
    case _ => !s.closed && s.pending.None?
  }

  function Handle(s: Session, vms: map<L.Id, L.Entry>, decode: Decoder, uuid: UuidParser, e: Event): Session
    requires Allowed(s, e)
  {
    match e
    case Authenticate(user, offered) => OnAuth(s, vms, decode, uuid, user, offered)
    case OpenChannel(channel) => s.(channel := Some(channel))
    case ShellLookup => OnLookup(s, vms)
    case ShellConnect(reply) => OnConnect(s, reply)
    case Message(bytes) => OnMessage(s, bytes)
    case Resize(cols, rows) => OnMessage(s, ResizeMessage(cols, rows))
    case Disconnect => s.(pending := None, current := None, closed := true)
    case Writer(k, w) => OnWrite(s, k, w)
  }

  // ── The stream of each shell ──

  /** Where relay `k` stops receiving: at the next successful shell request. */
  function Until(s: Session, k: nat): nat
    requires k < |s.relays|
  {
    if k + 1 < |s.relays| then s.relays[k + 1].from else |s.inbox|
  }

  predicate InRange(s: Session, k: nat)
    requires k < |s.relays|
  {
    s.relays[k].from <= Until(s, k) <= |s.inbox|
  }

  /** `uds_writer` is the sender of the newest shell, as long as the handler lives. */
  predicate NewestIsCurrent(s: Session) {
    s.current == if s.relays == [] || s.closed then None else Some(|s.relays| - 1)
  }

  /** The messages relay `k` accepted: sent after its shell request and before the next one. */
  function Accepted(s: Session, k: nat): seq<Bytes>
    requires k < |s.relays| && InRange(s, k)
  {
    s.inbox[s.relays[k].from..Until(s, k)]
  }

  function Stream(s: Session, k: nat): Bytes
    requires k < |s.relays| && InRange(s, k)
  {
    Ascii(CONNECT) + Concat(Accepted(s, k))
  }

  predicate BytesOk(r: Relay, stream: Bytes) {
    match r.task
    case Writing => r.written + (r.chunk + Concat(r.queue)) == stream
    case Ended => r.written == stream
    case Broken => r.written <= stream
  }

  predicate StreamOk(s: Session, k: nat)
    requires k < |s.relays|
  {
    && InRange(s, k)
    && BytesOk(s.relays[k], Stream(s, k))
    && (s.relays[k].task.Ended? ==> s.current != Some(k))
  }

  /**
    Each socket has received the CONNECT line and then a prefix of what the client sent to that
    shell, in order; until a write error, what is written and what is queued are all of it, and a
    writer that ended without one has written all of it.
   */
  ghost predicate Streams(s: Session) {
    NewestIsCurrent(s) && forall k :: 0 <= k < |s.relays| ==> StreamOk(s, k)
  }

  lemma {:induction false} ConcatSnoc(chunks: seq<Bytes>, m: Bytes)
    ensures Concat(chunks + [m]) == Concat(chunks) + m
  {
    if chunks == [] {
      assert chunks + [m] == [m];
      assert Concat([m]) == m + Concat([]) == m;
    } else {
      assert (chunks + [m])[1..] == chunks[1..] + [m];
      ConcatSnoc(chunks[1..], m);
    }
  }

  /** A stream depends on the inbox only up to where its relay stops receiving. */
  lemma SameStream(s: Session, s': Session, k: nat)
    requires k < |s.relays| && k < |s'.relays|
    requires InRange(s, k) && s'.relays[k].from == s.relays[k].from && Until(s', k) == Until(s, k)
    requires s.inbox <= s'.inbox
    ensures InRange(s', k) && Stream(s', k) == Stream(s, k)
  {
    assert Accepted(s', k) == Accepted(s, k);
  }

  lemma AppendKeepsBytes(r: Relay, stream: Bytes, m: Bytes)
    requires BytesOk(r, stream) && !r.task.Ended?
    ensures BytesOk(if r.task.Writing? then r.(queue := r.queue + [m]) else r, stream + m)
  {
    if r.task.Writing? {
      ConcatSnoc(r.queue, m);
      assert r.written + (r.chunk + (Concat(r.queue) + m)) == (r.written + (r.chunk + Concat(r.queue))) + m;
    } else {
      assert r.written <= stream <= stream + m;
    }
  }

  /** The current shell's stream grows by the message. */
  lemma StreamGrows(s: Session, m: Bytes, k: nat)
    requires NewestIsCurrent(s) && k + 1 == |s.relays| && InRange(s, k)
    ensures var s' := OnMessage(s, m);
            k + 1 == |s'.relays| && InRange(s', k) && Stream(s', k) == Stream(s, k) + m
  {
    var s' := OnMessage(s, m);
    assert s'.relays[k].from == s.relays[k].from && Until(s, k) == |s.inbox| && Until(s', k) == |s'.inbox|;
    assert s'.inbox[s.relays[k].from..] == s.inbox[s.relays[k].from..] + [m];
    assert Accepted(s', k) == Accepted(s, k) + [m];
    ConcatSnoc(Accepted(s, k), m);
    assert Ascii(CONNECT) + (Concat(Accepted(s, k)) + m) == Stream(s, k) + m;
  }

  lemma MessageKeepsOne(s: Session, m: Bytes, k: nat)
    requires Streams(s) && !s.closed && k < |s.relays|
    ensures var s' := OnMessage(s, m);
            |s'.relays| == |s.relays| && StreamOk(s', k)
  {
    assert StreamOk(s, k);
    if k + 1 < |s.relays| {
      SameStream(s, OnMessage(s, m), k);
    } else {
      StreamGrows(s, m, k);
      AppendKeepsBytes(s.relays[k], Stream(s, k), m);
    }
  }

  lemma MessageKeepsStreams(s: Session, m: Bytes)
    requires Streams(s) && !s.closed
    ensures Streams(OnMessage(s, m)) && OnMessage(s, m).inbox == s.inbox + [m]
  {
    var s' := OnMessage(s, m);
    forall k | 0 <= k < |s'.relays|
      ensures StreamOk(s', k)
    {
      MessageKeepsOne(s, m, k);
    }
  }

  lemma WriteKeepsStreams(s: Session, k: nat, w: Write)
    requires Streams(s) && Writable(s, k, w)
    ensures Streams(OnWrite(s, k, w))
  {
    var s' := OnWrite(s, k, w);
    forall j | 0 <= j < |s'.relays|
      ensures StreamOk(s', j)
    {
      assert StreamOk(s, j);
      SameStream(s, s', j);
      if j == k { WriteKeepsBytes(s.relays[k], s'.relays[k], w, Stream(s, k)); }
    }
  }

  lemma Regroup(written: Bytes, chunk: Bytes, n: nat, rest: Bytes)
    requires n <= |chunk|
    ensures written + chunk[..n] + (chunk[n..] + rest) == written + (chunk + rest)
  {
  }

  lemma WriteKeepsBytes(r: Relay, r': Relay, w: Write, stream: Bytes)
    requires r.task.Writing? && BytesOk(r, stream)
    requires match w
             case Recv => r.chunk == [] && r.queue != [] && r' == r.(chunk := r.queue[0], queue := r.queue[1..])
             case Put(n) => n <= |r.chunk| && r' == r.(chunk := r.chunk[n..], written := r.written + r.chunk[..n])
             case Fail => r' == r.(task := Broken)
             case Hangup => r.chunk == [] && r.queue == [] && r' == r.(task := Ended)
    ensures BytesOk(r', stream)
  {
    match w
    case Recv => assert [] + Concat(r.queue) == r'.chunk + Concat(r'.queue);
    case Put(n) => Regroup(r.written, r.chunk, n, Concat(r.queue));
    case Hangup => assert r.written + (r.chunk + Concat(r.queue)) == r.written;
    case Fail =>
  }

  lemma ConnectKeepsStreams(s: Session, reply: Reply)
    requires Streams(s) && !s.closed && s.pending.Some? && s.key.Some?
    ensures Streams(OnConnect(s, reply))
  {
    var s' := OnConnect(s, reply);
    forall k | 0 <= k < |s'.relays|
      ensures StreamOk(s', k)
    {
      if k < |s.relays| {
        assert StreamOk(s, k);
        SameStream(s, s', k);
      } else {
        assert Accepted(s', k) == [];
        assert Ascii(CONNECT) + [] == Ascii(CONNECT);
      }
    }
  }

  /** What an event adds to the messages of the client: its bytes, or the escape sequence of a resize. */
  function Sends(e: Event): seq<Bytes> {
    match e
    case Message(bytes) => [bytes]
    case Resize(cols, rows) =>
      [Ascii([27 as char] + "[8;" + Decimal.Print(rows) + ";" + Decimal.Print(cols) + "t")]
    case _ => []
  }

  /**
    Every callback and every writer step, in any interleaving, keeps all streams right, and what the
    client sends joins them as it is.
   */
  lemma EventKeepsStreams(s: Session, vms: map<L.Id, L.Entry>, decode: Decoder, uuid: UuidParser, e: Event)
    requires Streams(s) && Allowed(s, e)
    ensures Streams(Handle(s, vms, decode, uuid, e))
    ensures Handle(s, vms, decode, uuid, e).inbox == s.inbox + Sends(e)
  {
    match e
    case Message(bytes) => MessageKeepsStreams(s, bytes);
    case Resize(cols, rows) => MessageKeepsStreams(s, ResizeMessage(cols, rows));
    case Writer(k, w) => WriteKeepsStreams(s, k, w);
    case ShellConnect(reply) => ConnectKeepsStreams(s, reply);
    case _ =>
      var s' := Handle(s, vms, decode, uuid, e);
      assert s'.relays == s.relays && s'.inbox == s.inbox && (e.Disconnect? || s'.current == s.current);
      assert forall k :: 0 <= k < |s.relays| ==> Until(s', k) == Until(s, k);
      forall k | 0 <= k < |s'.relays|
        ensures StreamOk(s', k)
      {
        assert StreamOk(s, k);
      }
  }
}
