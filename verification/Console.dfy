/**
  The server and its SSH clients together: any number of sessions interleaved with the VM
  lifecycle, and the proof that a console only ever reaches a VM that authorised its key.
 */
module Console {
  import opened Prelude
  import opened AuthorizedKeys
  import opened Sessions
  import L = Lifecycle
  import Ledger
  import Refinement
  import Conservation
  import Exactness

  type Sid = nat

  datatype System = System(vm: L.State, sessions: map<Sid, Session>)

  datatype Action =
    | Server(a: L.Action)
    | Connect(c: Sid)
    | Client(c: Sid, e: Event)

  /** Decoding of keys and of UUIDs, the same throughout a run. */
  datatype Codec = Codec(decode: Decoder, uuid: UuidParser)

  /** Callbacks that look into the map hold the `vms` lock while they do. */
  predicate LooksUp(cx: Codec, s: Session, e: Event) {
    || (e.Authenticate? && ParseUser(cx.uuid, e.user).Ok? && ParseUser(cx.uuid, e.user).value.Some?)
    || (e.ShellLookup? && s.vmId.Some? && s.channel.Some?)
  }

  ghost predicate Next(cx: Codec, s: System, a: Action, s': System) {
    match a
    case Server(sa) =>
      L.Next(s.vm, sa, s'.vm) && s'.sessions == if sa.Crash? then map[] else s.sessions
    case Connect(c) =>
      c !in s.sessions && s' == s.(sessions := s.sessions[c := NewSession()])
    case Client(c, e) =>
      && c in s.sessions && Allowed(s.sessions[c], e)
      && (LooksUp(cx, s.sessions[c], e) ==> s.vm.vmsLock == None)
      && s' == s.(sessions := s.sessions[c := Handle(s.sessions[c], s.vm.vms, cx.decode, cx.uuid, e)])
  }

  // ── Vouched: authorised once, and by every later state in which the VM still exists ──

  ghost predicate Lives(cx: Codec, vm: L.State, id: L.Id, key: PublicKey) {
    id in vm.vms && vm.vms[id].Running? && Authorized(cx.decode, key, vm.vms[id].cfg.sshKeys)
  }

  ghost predicate Vouched(cx: Codec, vm: L.State, id: L.Id, key: PublicKey) {
    id in Refinement.Abs(vm).spent && (id in vm.vms ==> Lives(cx, vm, id, key))
  }

  /** No server step can turn a vouched-for VM into one that does not authorise the key. */
  lemma VouchedStays(cx: Codec, vm: L.State, a: L.Action, vm': L.State, id: L.Id, key: PublicKey)
    requires Conservation.Good(vm) && L.Next(vm, a, vm') && Vouched(cx, vm, id, key)
    ensures Vouched(cx, vm', id, key)
  {
    Refinement.AbsSound(vm);
    Refinement.StepRefines(vm, a, vm');
    Ledger.BookingIsForever(Refinement.Abs(vm), Refinement.EventOf(vm, a), Refinement.Abs(vm'), id);
    var b, b' := Refinement.Abs(vm), Refinement.Abs(vm');
    if id in vm'.vms {
      assert b'.booked[id] == Ledger.Booking(vm'.vms[id].cfg, vm'.vms[id].Running?);
      assert b.booked[id] == Ledger.Booking(vm.vms[id].cfg, vm.vms[id].Running?);
    }
  }

  lemma LivesIsVouched(cx: Codec, vm: L.State, id: L.Id, key: PublicKey)
    requires Conservation.Good(vm) && Lives(cx, vm, id, key)
    ensures Vouched(cx, vm, id, key)
  {
    Refinement.AbsSound(vm);
    assert id in Refinement.Abs(vm).booked;
  }

  // ── The invariant ──

  ghost predicate SessionOk(cx: Codec, vm: L.State, s: Session) {
    && Streams(s)
    && (s.vmId.Some? <==> s.key.Some?)
    && (s.vmId.Some? ==> Vouched(cx, vm, s.vmId.value, s.key.value))
    && (s.pending.Some? ==> s.pending == s.vmId)
    && (forall k :: 0 <= k < |s.relays| ==> Vouched(cx, vm, s.relays[k].vm, s.relays[k].key))
  }

  ghost predicate Sound(cx: Codec, s: System) {
    Conservation.Good(s.vm) && forall c :: c in s.sessions ==> SessionOk(cx, s.vm, s.sessions[c])
  }

  lemma AuthKeeps(cx: Codec, vm: L.State, s: Session, user: string, offered: PublicKey)
    requires Conservation.Good(vm) && SessionOk(cx, vm, s) && Allowed(s, Authenticate(user, offered))
    ensures SessionOk(cx, vm, OnAuth(s, vm.vms, cx.decode, cx.uuid, user, offered))
  {
    EventKeepsStreams(s, vm.vms, cx.decode, cx.uuid, Authenticate(user, offered));
    if AuthResult(vm.vms, cx.decode, cx.uuid, user, offered).Accept? {
      LivesIsVouched(cx, vm, ParseUser(cx.uuid, user).value.value, offered);
    }
  }

  lemma WriteKeepsOwner(s: Session, k: nat, w: Write, j: nat)
    requires Writable(s, k, w) && j < |s.relays|
    ensures var r := OnWrite(s, k, w).relays[j];
            r.vm == s.relays[j].vm && r.key == s.relays[j].key
  {
  }

  lemma ClientKeeps(cx: Codec, vm: L.State, s: Session, e: Event)
    requires Conservation.Good(vm) && SessionOk(cx, vm, s) && Allowed(s, e)
    ensures SessionOk(cx, vm, Handle(s, vm.vms, cx.decode, cx.uuid, e))
  {
    EventKeepsStreams(s, vm.vms, cx.decode, cx.uuid, e);
    match e
    case Authenticate(user, offered) => AuthKeeps(cx, vm, s, user, offered);
    case Writer(k, w) => WriterKeeps(cx, vm, s, k, w);
    case ShellConnect(reply) => ConnectKeeps(cx, vm, s, reply);
    case ShellLookup => LookupKeeps(cx, vm, s);
    case _ =>
  }

  lemma LookupKeeps(cx: Codec, vm: L.State, s: Session)
    requires SessionOk(cx, vm, s) && Streams(OnLookup(s, vm.vms))
    ensures SessionOk(cx, vm, OnLookup(s, vm.vms))
  {
  }

  lemma WriterKeeps(cx: Codec, vm: L.State, s: Session, k: nat, w: Write)
    requires SessionOk(cx, vm, s) && Writable(s, k, w) && Streams(OnWrite(s, k, w))
    ensures SessionOk(cx, vm, OnWrite(s, k, w))
  {
    forall j | 0 <= j < |s.relays|
      ensures Vouched(cx, vm, OnWrite(s, k, w).relays[j].vm, OnWrite(s, k, w).relays[j].key)
    {
      WriteKeepsOwner(s, k, w, j);
    }
  }

  lemma ConnectKeeps(cx: Codec, vm: L.State, s: Session, reply: Reply)
    requires SessionOk(cx, vm, s) && s.pending.Some? && s.key.Some? && Streams(OnConnect(s, reply))
    ensures SessionOk(cx, vm, OnConnect(s, reply))
  {
  }

  lemma ServerKeeps(cx: Codec, vm: L.State, a: L.Action, vm': L.State, s: Session)
    requires Conservation.Good(vm) && L.Next(vm, a, vm') && SessionOk(cx, vm, s)
    ensures SessionOk(cx, vm', s)
  {
    if s.vmId.Some? { VouchedStays(cx, vm, a, vm', s.vmId.value, s.key.value); }
    forall k | 0 <= k < |s.relays|
      ensures Vouched(cx, vm', s.relays[k].vm, s.relays[k].key)
    {
      VouchedStays(cx, vm, a, vm', s.relays[k].vm, s.relays[k].key);
    }
  }

  lemma StepKeepsSound(cx: Codec, s: System, a: Action, s': System)
    requires Sound(cx, s) && Next(cx, s, a, s')
    ensures Sound(cx, s')
  {
    match a
    case Server(sa) =>
      Exactness.StepKeeps(s.vm, sa, s'.vm);
      forall c | c in s'.sessions
        ensures SessionOk(cx, s'.vm, s'.sessions[c])
      {
        ServerKeeps(cx, s.vm, sa, s'.vm, s.sessions[c]);
      }
    case Connect(_) =>
    case Client(c, e) => ClientKeeps(cx, s.vm, s.sessions[c], e);
  }

  // ── Runs ──

  ghost predicate IsRun(cx: Codec, ss: seq<System>, acts: seq<Action>) {
    && |ss| == |acts| + 1
    && Exactness.Started(ss[0].vm) && ss[0].sessions == map[]
    && forall k :: 0 <= k < |acts| ==> Next(cx, ss[k], acts[k], ss[k + 1])
  }

  /** The invariant of server and sessions holds in every state of every run. */
  lemma {:induction false} RunIsSound(cx: Codec, ss: seq<System>, acts: seq<Action>, n: nat)
    requires IsRun(cx, ss, acts) && n < |ss|
    ensures Sound(cx, ss[n])
  {
    if n == 0 {
      Exactness.StartedIsGood(ss[0].vm);
    } else {
      RunIsSound(cx, ss, acts, n - 1);
      StepKeepsSound(cx, ss[n - 1], acts[n - 1], ss[n]);
    }
  }

  // ── What a client has done, by its events alone ──

  /** Since the connection: the messages sent, the steps that opened shells, the channel, and whether it is over. */
  datatype History = History(sent: seq<Bytes>, shells: seq<nat>, channel: Option<nat>, gone: bool)

  predicate OpensShell(a: Action, c: Sid) {
    a.Client? && a.c == c && a.e.ShellConnect? && IsOk(a.e.reply)
  }

  /** The history of client `c` before step `n`. A crash ends every connection. */
  function Past(acts: seq<Action>, n: nat, c: Sid): (h: History)
    requires n <= |acts|
    ensures forall k :: 0 <= k < |h.shells| ==> h.shells[k] < n && OpensShell(acts[h.shells[k]], c)
  {
    var blank := History([], [], None, false);
    if n == 0 then blank
    else
      var h := Past(acts, n - 1, c);
      match acts[n - 1]
      case Server(a) => if a.Crash? then blank else h
      case Connect(d) => if d == c then blank else h
      case Client(d, e) => if d == c then Told(h, e, n - 1) else h
  }

  /** The history after one more event, at step `n`. */
  function Told(h: History, e: Event, n: nat): History {
    match e
    case ShellConnect(reply) => if IsOk(reply) then h.(shells := h.shells + [n]) else h
    case OpenChannel(channel) => h.(channel := Some(channel))
    case Disconnect => h.(gone := true)
    case _ => h.(sent := h.sent + Sends(e))
  }

  /** How many messages the client had sent when its shell `k` was opened. */
  function Start(acts: seq<Action>, n: nat, c: Sid, k: nat): nat
    requires n <= |acts| && k < |Past(acts, n, c).shells|
  {
    |Past(acts, Past(acts, n, c).shells[k], c).sent|
  }

  /** And when the next one was, or by now. */
  function End(acts: seq<Action>, n: nat, c: Sid, k: nat): nat
    requires n <= |acts| && k < |Past(acts, n, c).shells|
  {
    if k + 1 < |Past(acts, n, c).shells| then Start(acts, n, c, k + 1) else |Past(acts, n, c).sent|
  }

  /** The session remembers the client's history, and each relay how much had been sent before it. */
  predicate Recalls(acts: seq<Action>, n: nat, c: Sid, s: Session)
    requires n <= |acts|
  {
    var h := Past(acts, n, c);
    && s.inbox == h.sent && s.channel == h.channel && s.closed == h.gone
    && |s.relays| == |h.shells|
    && forall k :: 0 <= k < |s.relays| ==> s.relays[k].from == Start(acts, n, c, k)
  }

  /** Only an OK from the socket adds a relay, and relays stay where they are. */
  lemma EventKeepsRelays(s: Session, vms: map<L.Id, L.Entry>, decode: Decoder, uuid: UuidParser, e: Event)
    requires Allowed(s, e)
    ensures var s' := Handle(s, vms, decode, uuid, e);
            && |s'.relays| == |s.relays| + (if e.ShellConnect? && IsOk(e.reply) then 1 else 0)
            && (forall k :: 0 <= k < |s.relays| ==> s'.relays[k].from == s.relays[k].from)
            && (|s'.relays| > |s.relays| ==> s'.relays[|s.relays|].from == |s.inbox|)
            && s'.channel == (if e.OpenChannel? then Some(e.channel) else s.channel)
            && s'.closed == (e.Disconnect? || s.closed)
  {
  }

  lemma ClientRecalls(cx: Codec, ss: seq<System>, acts: seq<Action>, n: nat, c: Sid, e: Event)
    requires n < |acts| && |ss| == |acts| + 1 && acts[n] == Client(c, e) && Next(cx, ss[n], acts[n], ss[n + 1])
    requires Recalls(acts, n, c, ss[n].sessions[c]) && Streams(ss[n].sessions[c])
    ensures Recalls(acts, n + 1, c, ss[n + 1].sessions[c])
  {
    var s, h, h' := ss[n].sessions[c], Past(acts, n, c), Past(acts, n + 1, c);
    EventKeepsStreams(s, ss[n].vm.vms, cx.decode, cx.uuid, e);
    EventKeepsRelays(s, ss[n].vm.vms, cx.decode, cx.uuid, e);
    assert h' == Told(h, e, n) && h.sent + [] == h.sent;
    assert forall k :: 0 <= k < |h.shells| ==> Start(acts, n + 1, c, k) == Start(acts, n, c, k);
  }

  lemma StillRecalls(acts: seq<Action>, n: nat, c: Sid, s: Session)
    requires n < |acts| && Recalls(acts, n, c, s) && Past(acts, n + 1, c) == Past(acts, n, c)
    ensures Recalls(acts, n + 1, c, s)
  {
    assert forall k :: 0 <= k < |s.relays| ==> Start(acts, n + 1, c, k) == Start(acts, n, c, k);
  }

  lemma StepRecalls(cx: Codec, ss: seq<System>, acts: seq<Action>, n: nat, c: Sid)
    requires n < |acts| && |ss| == |acts| + 1 && Next(cx, ss[n], acts[n], ss[n + 1])
    requires c in ss[n].sessions && c in ss[n + 1].sessions
    requires Recalls(acts, n, c, ss[n].sessions[c]) && Streams(ss[n].sessions[c])
    ensures Recalls(acts, n + 1, c, ss[n + 1].sessions[c])
  {
    if acts[n].Client? && acts[n].c == c {
      ClientRecalls(cx, ss, acts, n, c, acts[n].e);
    } else {
      SessionStays(cx, ss[n], acts[n], ss[n + 1], c);
      StillRecalls(acts, n, c, ss[n].sessions[c]);
    }
  }

  lemma {:induction false} RunRecalls(cx: Codec, ss: seq<System>, acts: seq<Action>, n: nat, c: Sid)
    requires IsRun(cx, ss, acts) && n < |ss| && c in ss[n].sessions
    ensures Recalls(acts, n, c, ss[n].sessions[c])
  {
    if n > 0 {
      if c in ss[n - 1].sessions {
        RunRecalls(cx, ss, acts, n - 1, c);
        RunStreams(cx, ss, acts, n - 1, c);
        StepRecalls(cx, ss, acts, n - 1, c);
      } else {
        NewcomerIsNew(cx, ss[n - 1], acts[n - 1], ss[n], c);
      }
    }
  }

  lemma RunStreams(cx: Codec, ss: seq<System>, acts: seq<Action>, n: nat, c: Sid)
    requires IsRun(cx, ss, acts) && n < |ss| && c in ss[n].sessions
    ensures Streams(ss[n].sessions[c])
  {
    RunIsSound(cx, ss, acts, n);
    assert SessionOk(cx, ss[n].vm, ss[n].sessions[c]);
  }

  /** What had been sent when a shell was opened is the beginning of what has been sent by now. */
  lemma {:induction false} SentGrows(acts: seq<Action>, n: nat, c: Sid, k: nat)
    requires n <= |acts| && k < |Past(acts, n, c).shells|
    ensures Past(acts, Past(acts, n, c).shells[k], c).sent <= Past(acts, n, c).sent
  {
    var before, h := Past(acts, n - 1, c), Past(acts, n, c);
    assert before.sent <= h.sent;
    if k < |before.shells| { SentGrows(acts, n - 1, c, k); }
  }

  /**
    The streams of a client in any state of any run, told from its events: it has one relay for every
    request that the socket answered with OK, and that relay's socket is owed the CONNECT line and
    then exactly the messages of the client up to the next such request.
   */
  lemma RunKeepsStreams(cx: Codec, ss: seq<System>, acts: seq<Action>, n: nat, c: Sid, k: nat)
    requires IsRun(cx, ss, acts) && n < |ss| && c in ss[n].sessions
    ensures |ss[n].sessions[c].relays| == |Past(acts, n, c).shells|
    ensures k < |Past(acts, n, c).shells| ==>
            var r, sent, from, until :=
              ss[n].sessions[c].relays[k], Past(acts, n, c).sent, Start(acts, n, c, k), End(acts, n, c, k);
            && from <= until <= |sent|
            && sent[..from] == Past(acts, Past(acts, n, c).shells[k], c).sent
            && var stream := Ascii("CONNECT 1024\n") + Concat(sent[from..until]);
               match r.task
               case Writing => r.written + (r.chunk + Concat(r.queue)) == stream
               case Ended => r.written == stream
               case Broken => r.written <= stream
  {
    RunStreams(cx, ss, acts, n, c);
    RunRecalls(cx, ss, acts, n, c);
    if k < |Past(acts, n, c).shells| {
      SentGrows(acts, n, c, k);
      assert StreamOk(ss[n].sessions[c], k);
    }
  }

  /** A shell's VM, as long as it is in the map, is Running and authorises the key the shell rests on. */
  lemma RelaysStayAuthorised(cx: Codec, ss: seq<System>, acts: seq<Action>, n: nat, c: Sid, k: nat)
    requires IsRun(cx, ss, acts) && n < |ss| && c in ss[n].sessions && k < |ss[n].sessions[c].relays|
    requires ss[n].sessions[c].relays[k].vm in ss[n].vm.vms
    ensures Lives(cx, ss[n].vm, ss[n].sessions[c].relays[k].vm, ss[n].sessions[c].relays[k].key)
  {
    RunIsSound(cx, ss, acts, n);
  }

  // ── Where a relay comes from ──

  /** Step `i` accepted an authentication of client `c`. */
  predicate Accepts(cx: Codec, ss: seq<System>, acts: seq<Action>, i: nat, c: Sid) {
    && i < |acts| && i < |ss|
    && acts[i].Client? && acts[i].c == c && acts[i].e.Authenticate?
    && AuthResult(ss[i].vm.vms, cx.decode, cx.uuid, acts[i].e.user, acts[i].e.offered).Accept?
  }

  /** The last accepted authentication of client `c` before step `n`, for the VM and key. */
  ghost predicate LastAccepted(cx: Codec, ss: seq<System>, acts: seq<Action>, i: nat, n: nat,
                               c: Sid, id: L.Id, key: PublicKey)
  {
    && i < n
    && Accepts(cx, ss, acts, i, c)
    && acts[i].e.offered == key && ParseUser(cx.uuid, acts[i].e.user) == Ok(Some(id))
    && forall j: nat :: i < j < n ==> !Accepts(cx, ss, acts, j, c)
  }

  /** Step `i` is a shell request's lookup that found the VM, in a session resting on the key. */
  predicate LookedUp(ss: seq<System>, acts: seq<Action>, i: nat, c: Sid, id: L.Id, key: PublicKey) {
    && i < |acts| && i < |ss|
    && acts[i] == Client(c, ShellLookup) && c in ss[i].sessions
    && LookupResult(ss[i].sessions[c], ss[i].vm.vms) == Ok(id)
    && ss[i].sessions[c].key == Some(key)
  }

  ghost predicate WasAccepted(cx: Codec, ss: seq<System>, acts: seq<Action>, n: nat, c: Sid, id: L.Id, key: PublicKey) {
    exists i: nat :: LastAccepted(cx, ss, acts, i, n, c, id, key)
  }

  /** Nothing but writer steps of client `c` strictly between the two steps. */
  predicate Quiet(acts: seq<Action>, i: nat, n: nat, c: Sid) {
    forall m :: i < m < n && m < |acts| ==> !Calls(acts[m], c)
  }

  predicate Calls(a: Action, c: Sid) {
    a.Client? && a.c == c && !a.e.Writer?
  }

  ghost predicate WasLookedUp(ss: seq<System>, acts: seq<Action>, n: nat, c: Sid, id: L.Id, key: PublicKey) {
    exists i: nat :: i < n && LookedUp(ss, acts, i, c, id, key) && Quiet(acts, i, n, c)
  }

  /** Where the fields of a session come from, `shells` being the steps that opened its relays. */
  ghost predicate Story(cx: Codec, ss: seq<System>, acts: seq<Action>, n: nat, c: Sid, s: Session, shells: seq<nat>) {
    && (s.vmId.Some? <==> s.key.Some?)
    && (s.vmId.Some? ==> WasAccepted(cx, ss, acts, n, c, s.vmId.value, s.key.value))
    && (s.pending.Some? ==> s.key.Some? && WasLookedUp(ss, acts, n, c, s.pending.value, s.key.value))
    && |s.relays| == |shells|
    && (forall k :: 0 <= k < |shells| ==> WasLookedUp(ss, acts, shells[k], c, s.relays[k].vm, s.relays[k].key))
  }

  lemma AcceptedStays(cx: Codec, ss: seq<System>, acts: seq<Action>, n: nat, c: Sid, id: L.Id, key: PublicKey)
    requires WasAccepted(cx, ss, acts, n, c, id, key)
    requires !Accepts(cx, ss, acts, n, c)
    ensures WasAccepted(cx, ss, acts, n + 1, c, id, key)
  {
    var i: nat :| LastAccepted(cx, ss, acts, i, n, c, id, key);
    assert LastAccepted(cx, ss, acts, i, n + 1, c, id, key);
  }

  lemma LookedUpStays(ss: seq<System>, acts: seq<Action>, n: nat, c: Sid, id: L.Id, key: PublicKey)
    requires WasLookedUp(ss, acts, n, c, id, key) && n < |acts| && !Calls(acts[n], c)
    ensures WasLookedUp(ss, acts, n + 1, c, id, key)
  {
    var i: nat :| i < n && LookedUp(ss, acts, i, c, id, key) && Quiet(acts, i, n, c);
    assert Quiet(acts, i, n + 1, c);
  }

  /** A step that is not an accepted authentication of `c` and leaves its session alone. */
  lemma StoryStays(cx: Codec, ss: seq<System>, acts: seq<Action>, n: nat, c: Sid, s: Session, shells: seq<nat>)
    requires Story(cx, ss, acts, n, c, s, shells) && n < |acts| && (s.pending.Some? ==> !Calls(acts[n], c))
    requires !Accepts(cx, ss, acts, n, c)
    ensures Story(cx, ss, acts, n + 1, c, s, shells)
  {
    if s.vmId.Some? { AcceptedStays(cx, ss, acts, n, c, s.vmId.value, s.key.value); }
    if s.pending.Some? { LookedUpStays(ss, acts, n, c, s.pending.value, s.key.value); }
  }

  lemma AuthStory(cx: Codec, ss: seq<System>, acts: seq<Action>, n: nat, c: Sid, shells: seq<nat>)
    requires n < |acts| && |ss| == |acts| + 1 && Next(cx, ss[n], acts[n], ss[n + 1])
    requires acts[n].Client? && acts[n].c == c && acts[n].e.Authenticate?
    requires Story(cx, ss, acts, n, c, ss[n].sessions[c], shells)
    ensures Story(cx, ss, acts, n + 1, c, ss[n + 1].sessions[c], shells)
  {
    var s, e := ss[n].sessions[c], acts[n].e;
    if AuthResult(ss[n].vm.vms, cx.decode, cx.uuid, e.user, e.offered).Accept? {
      var id := ParseUser(cx.uuid, e.user).value.value;
      assert LastAccepted(cx, ss, acts, n, n + 1, c, id, e.offered);
    } else {
      StoryStays(cx, ss, acts, n, c, s, shells);
    }
  }

  lemma CallbackStory(cx: Codec, ss: seq<System>, acts: seq<Action>, n: nat, c: Sid, shells: seq<nat>)
    requires n < |acts| && |ss| == |acts| + 1 && Next(cx, ss[n], acts[n], ss[n + 1])
    requires acts[n].Client? && acts[n].c == c && !acts[n].e.Authenticate?
    requires Story(cx, ss, acts, n, c, ss[n].sessions[c], shells)
    ensures Story(cx, ss, acts, n + 1, c, ss[n + 1].sessions[c],
                  if OpensShell(acts[n], c) then shells + [n] else shells)
  {
    var s := ss[n].sessions[c];
    var idle := if acts[n].e.Writer? then s else s.(pending := None);
    StoryStays(cx, ss, acts, n, c, idle, shells);
    HandledStory(cx, ss, acts, n, c, s, shells);
  }

  lemma HandledStory(cx: Codec, ss: seq<System>, acts: seq<Action>, n: nat, c: Sid, s: Session, shells: seq<nat>)
    requires n < |acts| && n < |ss| && c in ss[n].sessions && ss[n].sessions[c] == s
    requires acts[n].Client? && acts[n].c == c && !acts[n].e.Authenticate? && Allowed(s, acts[n].e)
    requires s.pending.Some? ==> s.key.Some? && WasLookedUp(ss, acts, n, c, s.pending.value, s.key.value)
    requires Story(cx, ss, acts, n + 1, c, if acts[n].e.Writer? then s else s.(pending := None), shells)
    ensures Story(cx, ss, acts, n + 1, c, Handle(s, ss[n].vm.vms, cx.decode, cx.uuid, acts[n].e),
                  if OpensShell(acts[n], c) then shells + [n] else shells)
  {
    match acts[n].e
    case ShellLookup => LookupStory(cx, ss, acts, n, c, s, shells);
    case Writer(k, w) => WriterStory(cx, ss, acts, n + 1, c, s, k, w, shells);
    case ShellConnect(reply) => ConnectStory(cx, ss, acts, n, c, s, reply, shells);
    case Authenticate(_, _) =>
    case OpenChannel(_) => OtherStory(cx, ss, acts, n + 1, c, s, ss[n].vm.vms, acts[n].e, shells);
    case Message(_) => OtherStory(cx, ss, acts, n + 1, c, s, ss[n].vm.vms, acts[n].e, shells);
    case Resize(_, _) => OtherStory(cx, ss, acts, n + 1, c, s, ss[n].vm.vms, acts[n].e, shells);
    case Disconnect => OtherStory(cx, ss, acts, n + 1, c, s, ss[n].vm.vms, acts[n].e, shells);
  }

  lemma ConnectStory(cx: Codec, ss: seq<System>, acts: seq<Action>, n: nat, c: Sid, s: Session, reply: Reply,
                     shells: seq<nat>)
    requires s.pending.Some? && s.key.Some? && WasLookedUp(ss, acts, n, c, s.pending.value, s.key.value)
    requires Story(cx, ss, acts, n + 1, c, s.(pending := None), shells)
    ensures Story(cx, ss, acts, n + 1, c, OnConnect(s, reply), if IsOk(reply) then shells + [n] else shells)
  {
  }

  lemma OtherStory(cx: Codec, ss: seq<System>, acts: seq<Action>, n: nat, c: Sid, s: Session,
                   vms: map<L.Id, L.Entry>, e: Event, shells: seq<nat>)
    requires Story(cx, ss, acts, n, c, s.(pending := None), shells) && Allowed(s, e)
    requires e.OpenChannel? || e.Message? || e.Resize? || e.Disconnect?
    ensures Story(cx, ss, acts, n, c, Handle(s, vms, cx.decode, cx.uuid, e), shells)
  {
  }

  lemma LookupStory(cx: Codec, ss: seq<System>, acts: seq<Action>, n: nat, c: Sid, s: Session, shells: seq<nat>)
    requires n < |acts| && n < |ss| && acts[n] == Client(c, ShellLookup) && c in ss[n].sessions
    requires ss[n].sessions[c] == s && s.pending.None? && Story(cx, ss, acts, n + 1, c, s, shells)
    ensures Story(cx, ss, acts, n + 1, c, OnLookup(s, ss[n].vm.vms), shells)
  {
    if LookupResult(s, ss[n].vm.vms).Ok? {
      assert LookedUp(ss, acts, n, c, s.vmId.value, s.key.value) && Quiet(acts, n, n + 1, c);
    }
  }

  lemma WriterStory(cx: Codec, ss: seq<System>, acts: seq<Action>, n: nat, c: Sid, s: Session, k: nat, w: Write,
                    shells: seq<nat>)
    requires Story(cx, ss, acts, n, c, s, shells) && Writable(s, k, w)
    ensures Story(cx, ss, acts, n, c, OnWrite(s, k, w), shells)
  {
    forall j | 0 <= j < |s.relays|
      ensures WasLookedUp(ss, acts, shells[j], c, OnWrite(s, k, w).relays[j].vm, OnWrite(s, k, w).relays[j].key)
    {
      WriteKeepsOwner(s, k, w, j);
    }
  }

  lemma NewcomerIsNew(cx: Codec, s: System, a: Action, s': System, c: Sid)
    requires Next(cx, s, a, s') && c !in s.sessions && c in s'.sessions
    ensures s'.sessions[c] == NewSession() && a == Connect(c)
  {
  }

  lemma SessionStays(cx: Codec, s: System, a: Action, s': System, c: Sid)
    requires Next(cx, s, a, s') && c in s.sessions && c in s'.sessions && !(a.Client? && a.c == c)
    ensures s'.sessions[c] == s.sessions[c] && a != Connect(c) && !(a.Server? && a.a.Crash?)
  {
  }

  lemma StoryStep(cx: Codec, ss: seq<System>, acts: seq<Action>, n: nat, c: Sid)
    requires n < |acts| && |ss| == |acts| + 1 && Next(cx, ss[n], acts[n], ss[n + 1])
    requires c in ss[n + 1].sessions
    requires c in ss[n].sessions ==> Story(cx, ss, acts, n, c, ss[n].sessions[c], Past(acts, n, c).shells)
    ensures Story(cx, ss, acts, n + 1, c, ss[n + 1].sessions[c], Past(acts, n + 1, c).shells)
  {
    var shells := Past(acts, n, c).shells;
    if c !in ss[n].sessions {
      NewcomerIsNew(cx, ss[n], acts[n], ss[n + 1], c);
    } else if acts[n].Client? && acts[n].c == c {
      if acts[n].e.Authenticate? { AuthStory(cx, ss, acts, n, c, shells); }
      else { CallbackStory(cx, ss, acts, n, c, shells); }
    } else {
      SessionStays(cx, ss[n], acts[n], ss[n + 1], c);
      StoryStays(cx, ss, acts, n, c, ss[n].sessions[c], shells);
    }
  }

  lemma {:induction false} StoryAlong(cx: Codec, ss: seq<System>, acts: seq<Action>, n: nat, c: Sid)
    requires IsRun(cx, ss, acts) && n < |ss| && c in ss[n].sessions
    ensures Story(cx, ss, acts, n, c, ss[n].sessions[c], Past(acts, n, c).shells)
  {
    if n > 0 {
      var m := n - 1;
      assert Next(cx, ss[m], acts[m], ss[m + 1]);
      if c in ss[m].sessions { StoryAlong(cx, ss, acts, m, c); }
      StoryStep(cx, ss, acts, m, c);
    }
  }

  /**
    Every shell was opened by a request whose lookup, the client's last callback before it, found the
    VM Running and still authorising the key; and that goes back to the session's last accepted
    authentication, which was for the same VM and key and also found it Running and authorising them.
   */
  lemma ShellsAreAuthorised(cx: Codec, ss: seq<System>, acts: seq<Action>, n: nat, c: Sid, k: nat)
    requires IsRun(cx, ss, acts) && n < |ss| && c in ss[n].sessions && k < |ss[n].sessions[c].relays|
    ensures k < |Past(acts, n, c).shells|
    ensures var r, at := ss[n].sessions[c].relays[k], Past(acts, n, c).shells[k];
            exists i: nat, j: nat ::
              && i < j < at < n && Quiet(acts, j, at, c)
              && LookedUp(ss, acts, j, c, r.vm, r.key) && Lives(cx, ss[j].vm, r.vm, r.key)
              && LastAccepted(cx, ss, acts, i, j, c, r.vm, r.key) && Lives(cx, ss[i].vm, r.vm, r.key)
  {
    StoryAlong(cx, ss, acts, n, c);
    var r, at := ss[n].sessions[c].relays[k], Past(acts, n, c).shells[k];
    assert WasLookedUp(ss, acts, at, c, r.vm, r.key);
    var j: nat :| j < at && LookedUp(ss, acts, j, c, r.vm, r.key) && Quiet(acts, j, at, c);
    var i := Traced(cx, ss, acts, j, c, r.vm, r.key);
  }

  lemma Traced(cx: Codec, ss: seq<System>, acts: seq<Action>, j: nat, c: Sid, id: L.Id, key: PublicKey)
    returns (i: nat)
    requires IsRun(cx, ss, acts) && LookedUp(ss, acts, j, c, id, key)
    ensures i < j && LastAccepted(cx, ss, acts, i, j, c, id, key)
    ensures Lives(cx, ss[j].vm, id, key) && Lives(cx, ss[i].vm, id, key)
  {
    RunIsSound(cx, ss, acts, j);
    assert SessionOk(cx, ss[j].vm, ss[j].sessions[c]);
    StoryAlong(cx, ss, acts, j, c);
    i :| LastAccepted(cx, ss, acts, i, j, c, id, key);
  }
}
