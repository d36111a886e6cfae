/** A run in which a client reaches a VM's console: the other laws on sessions are not about nothing. */
module ConsoleScenario {
  import opened Prelude
  import opened AuthorizedKeys
  import opened Sessions
  import opened Console
  import L = Lifecycle
  import VmConfig
  import Scenario
  import Solo

  /** The server's own run, before any client connects. */
  lemma ServerAlone(cx: Codec, vms: seq<L.State>, steps: seq<L.Action>, s: L.State, s': L.State)
    returns (ss: seq<System>, acts: seq<Action>)
    requires Solo.Trail(vms, steps, s, s', Solo.CalmSteps) && s == L.Init(s.cap)
    ensures IsRun(cx, ss, acts) && ss[|acts|] == System(s', map[])
  {
    ss := seq(|vms|, k requires 0 <= k < |vms| => System(vms[k], map[]));
    acts := seq(|steps|, k requires 0 <= k < |steps| => Server(steps[k]));
    forall k | 0 <= k < |acts|
      ensures Next(cx, ss[k], acts[k], ss[k + 1])
    {
      assert L.Next(vms[k], steps[k], vms[k + 1]) && Solo.Takes(Solo.CalmSteps, steps[k]);
    }
  }

  /** One more step of a run. */
  lemma Extend(cx: Codec, ss: seq<System>, acts: seq<Action>, a: Action, s': System)
    requires IsRun(cx, ss, acts) && Next(cx, ss[|acts|], a, s')
    ensures IsRun(cx, ss + [s'], acts + [a]) && (ss + [s'])[|acts + [a]|] == s'
  {
    var ts, bs := ss + [s'], acts + [a];
    forall k | 0 <= k < |bs|
      ensures Next(cx, ts[k], bs[k], ts[k + 1])
    {
      if k < |acts| { assert Next(cx, ss[k], acts[k], ss[k + 1]); }
    }
  }

  /** One more event of client 0, with nobody holding the map. */
  lemma Tell(cx: Codec, ss: seq<System>, acts: seq<Action>, vm: L.State, s: Session, e: Event)
    returns (ss': seq<System>, acts': seq<Action>)
    requires IsRun(cx, ss, acts) && ss[|acts|] == System(vm, map[0 := s]) && vm.vmsLock == None && Allowed(s, e)
    ensures IsRun(cx, ss', acts')
    ensures ss'[|acts'|] == System(vm, map[0 := Handle(s, vm.vms, cx.decode, cx.uuid, e)])
  {
    var s' := System(vm, map[0 := Handle(s, vm.vms, cx.decode, cx.uuid, e)]);
    assert map[0 := s][0 := Handle(s, vm.vms, cx.decode, cx.uuid, e)] == s'.sessions;
    Extend(cx, ss, acts, Client(0, e), s');
    ss', acts' := ss + [s'], acts + [Client(0, e)];
  }

  /** Connected, logged in, and a shell open. */
  function LoggedIn(id: L.Id, key: PublicKey): Session {
    NewSession().(vmId := Some(id), key := Some(key), channel := Some(0))
  }

  function InShell(id: L.Id, key: PublicKey, queue: seq<Bytes>, chunk: Bytes, written: Bytes, inbox: seq<Bytes>)
    : Session
  {
    LoggedIn(id, key).(relays := [Relay(id, key, 0, queue, chunk, written, Writing)], current := Some(0),
                       inbox := inbox)
  }

  /** The login. */
  lemma LoggingIn(cx: Codec, vms: map<L.Id, L.Entry>, id: L.Id, key: PublicKey, user: string)
    requires id in vms && vms[id].Running? && Authorized(cx.decode, key, vms[id].cfg.sshKeys)
    requires IsVmUser(user) && cx.uuid(user[3..]) == Some(id)
    ensures Allowed(NewSession(), Authenticate(user, key))
    ensures Handle(NewSession(), vms, cx.decode, cx.uuid, Authenticate(user, key))
            == LoggedIn(id, key).(channel := None)
  {
  }

  /** The callbacks after it that lead to a shell, one by one. */
  lemma OpeningShell(cx: Codec, vms: map<L.Id, L.Entry>, id: L.Id, key: PublicKey)
    requires id in vms && vms[id].Running?
    ensures var s := LoggedIn(id, key);
            && Handle(s.(channel := None), vms, cx.decode, cx.uuid, OpenChannel(0)) == s
            && Handle(s, vms, cx.decode, cx.uuid, ShellLookup) == s.(pending := Some(id))
            && Handle(s.(pending := Some(id)), vms, cx.decode, cx.uuid, ShellConnect(Answer("OK 1\n")))
               == InShell(id, key, [], [], Ascii("CONNECT 1024\n"), [])
  {
  }

  /** A message on its way to the socket. */
  lemma Typing(cx: Codec, vms: map<L.Id, L.Entry>, id: L.Id, key: PublicKey, typed: Bytes, hello: Bytes)
    ensures var s := InShell(id, key, [], [], hello, []);
            && Handle(s, vms, cx.decode, cx.uuid, Message(typed)) == InShell(id, key, [typed], [], hello, [typed])
    ensures var s := InShell(id, key, [typed], [], hello, [typed]);
            && Allowed(s, Writer(0, Recv))
            && Handle(s, vms, cx.decode, cx.uuid, Writer(0, Recv)) == InShell(id, key, [], typed, hello, [typed])
    ensures var s := InShell(id, key, [], typed, hello, [typed]);
            && Allowed(s, Writer(0, Put(|typed|)))
            && Handle(s, vms, cx.decode, cx.uuid, Writer(0, Put(|typed|)))
               == InShell(id, key, [], [], hello + typed, [typed])
  {
    var r0 := Relay(id, key, 0, [], [], hello, Writing);
    var r1, r2 := r0.(queue := [typed]), r0.(chunk := typed);
    var empty: seq<Bytes> := [];
    assert empty + [typed] == [typed] && [typed][1..] == empty;
    assert typed[..|typed|] == typed && typed[|typed|..] == [];
    assert [r0][0 := r1] == [r1] && [r1][0 := r2] == [r2];
    assert [r2][0 := r0.(written := hello + typed)] == [r0.(written := hello + typed)];
  }

  /** A client whose key the VM lists opens a shell. */
  lemma ShellCanOpen(cx: Codec, cap: VmConfig.Capacity, id: L.Id, cfg: L.Config, key: PublicKey, user: string)
    returns (ss: seq<System>, acts: seq<Action>, vm: L.State)
    requires Scenario.Valid(cfg) && Scenario.Fits(cap, cfg)
    requires Authorized(cx.decode, key, cfg.sshKeys) && IsVmUser(user) && cx.uuid(user[3..]) == Some(id)
    ensures IsRun(cx, ss, acts) && vm.vmsLock == None && vm.vms == map[id := L.Running(cfg, Scenario.NET)]
    ensures ss[|acts|] == System(vm, map[0 := InShell(id, key, [], [], Ascii("CONNECT 1024\n"), [])])
  {
    vm := Scenario.CreateCanSucceed(cap, id, cfg);
    var vms, steps :| Solo.Trail(vms, steps, L.Init(cap), vm, Solo.CalmSteps);
    ss, acts := ServerAlone(cx, vms, steps, L.Init(cap), vm);
    var connected := System(vm, map[0 := NewSession()]);
    assert map[][0 := NewSession()] == connected.sessions;
    LoggingIn(cx, vm.vms, id, key, user);
    OpeningShell(cx, vm.vms, id, key);
    Extend(cx, ss, acts, Connect(0), connected);
    ss, acts := ss + [connected], acts + [Connect(0)];
    ss, acts := Tell(cx, ss, acts, vm, NewSession(), Authenticate(user, key));
    ss, acts := Tell(cx, ss, acts, vm, LoggedIn(id, key).(channel := None), OpenChannel(0));
    ss, acts := Tell(cx, ss, acts, vm, LoggedIn(id, key), ShellLookup);
    ss, acts := Tell(cx, ss, acts, vm, LoggedIn(id, key).(pending := Some(id)), ShellConnect(Answer("OK 1\n")));
  }

  /** What that client types is written to the VM's socket, behind the CONNECT line. */
  lemma TypingReachesVm(cx: Codec, cap: VmConfig.Capacity, id: L.Id, cfg: L.Config, key: PublicKey, user: string,
                        typed: Bytes)
    returns (ss: seq<System>, acts: seq<Action>)
    requires Scenario.Valid(cfg) && Scenario.Fits(cap, cfg)
    requires Authorized(cx.decode, key, cfg.sshKeys) && IsVmUser(user) && cx.uuid(user[3..]) == Some(id)
    ensures IsRun(cx, ss, acts)
    ensures var last := ss[|acts|];
            && last.vm.vms == map[id := L.Running(cfg, Scenario.NET)] && last.sessions.Keys == {0}
            && last.sessions[0].relays ==
               [Relay(id, key, 0, [], [], Ascii("CONNECT 1024\n") + typed, Writing)]
  {
    var vm;
    var hello := Ascii("CONNECT 1024\n");
    ss, acts, vm := ShellCanOpen(cx, cap, id, cfg, key, user);
    Typing(cx, vm.vms, id, key, typed, hello);
    ss, acts := Tell(cx, ss, acts, vm, InShell(id, key, [], [], hello, []), Message(typed));
    ss, acts := Tell(cx, ss, acts, vm, InShell(id, key, [typed], [], hello, [typed]), Writer(0, Recv));
    ss, acts := Tell(cx, ss, acts, vm, InShell(id, key, [], typed, hello, [typed]), Writer(0, Put(|typed|)));
  }
}
