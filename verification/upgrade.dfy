// The Windows upgrade transaction: directories are swapped by renaming and the
// service registration is replaced by an install script, every single operation
// may fail, also inside the rollback. Failures and waiting times are arbitrary choices.
module Upgrade {
  import opened Bytes

  // ------------------------------------------------------------ directories

  datatype Entry = Folder | File(data: bytes) | Unsupported

  type Tree = map<string, Entry>

  /** A directory keeps its identity when it is renamed. */
  datatype Directory = Directory(id: nat, tree: Tree)

  datatype Place = Target | Staged | Backup | Failed

  datatype Disk = Disk(
    target: Option<Directory>, staged: Option<Directory>, backup: Option<Directory>, failed: Option<Directory>)
  {
    function Get(p: Place): Option<Directory> {
      match p case Target => target case Staged => staged case Backup => backup case Failed => failed
    }

    function Put(p: Place, d: Option<Directory>): Disk {
      match p
      case Target => this.(target := d)
      case Staged => this.(staged := d)
      case Backup => this.(backup := d)
      case Failed => this.(failed := d)
    }
  }

  function Renamed(disk: Disk, from: Place, to: Place): Disk {
    disk.Put(to, disk.Get(from)).Put(from, None)
  }

  /** The old tree is there, intact, at exactly one of target and backup. */
  predicate Kept(disk: Disk, previous: Directory) {
    && (disk.target == Some(previous)) != (disk.backup == Some(previous))
    && disk.staged != Some(previous) && disk.failed != Some(previous)
  }

  // --------------------------------------------------------------- services

  datatype Name = Native | Managed

  datatype Kind = NativeProgram | ManagedProgram

  datatype Run = Stopped | Running | Changing

  /** Reset period, and the type and delay of each action. */
  datatype Plan = Plan(reset: nat, actions: seq<(nat, nat)>)

  /** The failure actions of a service; None is a member that is not set, which a query reports as NULL. */
  datatype Recovery = Recovery(plan: Option<Plan>, rebootMessage: Option<string>, command: Option<string>)

  const NO_RECOVERY := Recovery(None, None, None)

  /**
   * ChangeServiceConfig2 leaves every member alone whose pointer is NULL; without actions the reset period is ignored
   * too.
   */
  function Applied(given: Recovery, found: Recovery): Recovery {
    Recovery(if given.plan.Some? then given.plan else found.plan,
             if given.rebootMessage.Some? then given.rebootMessage else found.rebootMessage,
             if given.command.Some? then given.command else found.command)
  }

  datatype Config = Config(
    serviceType: nat, start: nat, error: nat, command: string, group: string, dependencies: seq<string>,
    account: string, display: string,
    delayed: bool, description: string, recovery: Recovery, failureFlag: bool)

  datatype Service =
    | Absent
    | Registered(config: Config, run: Run)
    | PendingDelete(config: Config, run: Run)

  /** The same registration in another state. */
  function InState(svc: Service, run: Run): Service {
    match svc
    case Absent => Absent
    case Registered(c, _) => Registered(c, run)
    case PendingDelete(c, _) => PendingDelete(c, run)
  }

  datatype Services = Services(native: Service, managed: Service)
  {
    function Get(n: Name): Service {
      match n case Native => native case Managed => managed
    }

    function Put(n: Name, s: Service): Services {
      match n case Native => this.(native := s) case Managed => this.(managed := s)
    }
  }

  /** `recoveryRead`: the query for the failure actions gave a buffer, which it does also when none are set. */
  datatype Snapshot = Snapshot(name: Name, kind: Kind, config: Config, recoveryRead: bool, running: bool)

  const AUTO_START: nat := 2

  /** What snapshot saw. */
  function Original(s: Snapshot): Service {
    Registered(s.config, if s.running then Running else Stopped)
  }

  /** CreateService sets what ChangeServiceConfig sets; the extended settings start from defaults. */
  function Created(c: Config): Config {
    c.(delayed := false, description := "", recovery := NO_RECOVERY, failureFlag := false)
  }

  function FoundRecovery(found: Service): Recovery {
    if found.Registered? then found.config.recovery else NO_RECOVERY
  }

  /** The registration after `restore` completed, from what it found. */
  function AfterRestore(s: Snapshot, found: Service): Service {
    var recovery := if s.recoveryRead then Applied(s.config.recovery, FoundRecovery(found)) else FoundRecovery(found);
    Registered(s.config.(recovery := recovery),
               if s.running then Running else if found.Registered? then found.run else Stopped)
  }

  /**
   * The service that `restore` finds if the rollback gets that far and completes: a pending deletion must have ended.
   */
  function FoundAfter(svc: Service, stopped: bool): Service {
    match svc
    case Registered(c, run) => Registered(c, if stopped then Stopped else run)
    case _ => Absent
  }

  /** After the install script was started, only the native service is stopped by the rollback. */
  predicate StopsOld(s: Snapshot, installed: bool) {
    !installed || s.name == Native
  }

  /** The old service after a completed rollback. */
  function RolledBack(s: Snapshot, installed: bool, services: Services): Service {
    AfterRestore(s, FoundAfter(services.Get(s.name), StopsOld(s, installed)))
  }

  /** A member of the failure actions comes out as it was: it is written back, or nothing has changed it. */
  predicate Survives<T(==)>(read: bool, original: Option<T>, found: Option<T>) {
    (read && original.Some?) || found == original
  }

  /** What must hold when the rollback starts for the old service to become what it was. */
  predicate Restorable(s: Snapshot, installed: bool, services: Services) {
    var svc := services.Get(s.name);
    var original, found := s.config.recovery, FoundRecovery(svc);
    && (svc.Registered? ==> s.running || StopsOld(s, installed) || svc.run == Stopped)
    && Survives(s.recoveryRead, original.plan, found.plan)
    && Survives(s.recoveryRead, original.rebootMessage, found.rebootMessage)
    && Survives(s.recoveryRead, original.command, found.command)
  }

  /** A completed rollback gives back the old service, field by field and running or not, exactly in these cases. */
  lemma RollbackRestoresIff(s: Snapshot, installed: bool, services: Services)
    ensures RolledBack(s, installed, services) == Original(s) <==> Restorable(s, installed, services)
  {
    var original, result := Original(s), RolledBack(s, installed, services);
    assert original.config == s.config.(recovery := s.config.recovery);
    assert result == original <==> result.run == original.run && result.config.recovery == s.config.recovery;
  }

  /** Before the install script was started, all that can be lost is failure actions that could not be read. */
  lemma BeforeScriptRollbackRestores(s: Snapshot, services: Services)
    requires services.Get(s.name).Registered? ==> services.Get(s.name).config == s.config
    ensures RolledBack(s, false, services) == Original(s) <==>
            services.Get(s.name).Registered? || s.recoveryRead || s.config.recovery == NO_RECOVERY
  {
    RollbackRestoresIff(s, false, services);
  }

  /** Snapshots that a completed rollback restores whatever the install script did. */
  predicate AlwaysRestorable(s: Snapshot) {
    && (s.name == Native || s.running)
    && s.recoveryRead && s.config.recovery.plan.Some? && s.config.recovery.rebootMessage.Some?
    && s.config.recovery.command.Some?
  }

  lemma AfterScriptRollbackRestores(s: Snapshot, services: Services)
    requires AlwaysRestorable(s)
    ensures RolledBack(s, true, services) == Original(s)
  {
    RollbackRestoresIff(s, true, services);
  }

  /** Something else than this. */
  function Different<T>(original: Option<T>, some: T): Option<T> {
    if original.Some? then None else Some(some)
  }

  /** For every other snapshot the script can leave something that the rollback does not undo. */
  lemma OnlyTheseAreAlwaysRestored(s: Snapshot) returns (services: Services)
    requires !AlwaysRestorable(s)
    ensures RolledBack(s, true, services) != Original(s)
  {
    var r := s.config.recovery;
    var altered := Recovery(Different(r.plan, Plan(60, [(1, 0)])), Different(r.rebootMessage, "again"),
                            Different(r.command, "run.exe"));
    var svc := Registered(s.config.(recovery := altered), Running);
    services := Services(svc, svc);
    RollbackRestoresIff(s, true, services);
  }

  /** A managed service that was stopped, and that the script started, is left running by the rollback. */
  lemma StoppedServiceComesBackRunning() returns (s: Snapshot, services: Services)
    ensures s.name == Managed && !s.running && AlwaysRestorable(s.(running := true))
    ensures services.managed == Registered(s.config, Running) && services.native.Absent?
    ensures RolledBack(s, true, services) == Registered(s.config, Running) != Original(s)
  {
    var r := Recovery(Some(Plan(86400, [(1, 60000)])), Some("restarting"), Some("notify.exe"));
    var c := Config(16, 2, 1, "C:\\bridge\\hik-sdk-http-bridge.exe service", "", [], "LocalSystem", "Bridge",
                    false, "", r, false);
    s := Snapshot(Managed, NativeProgram, c, true, false);
    services := Services(Absent, Registered(c, Running));
    assert c.(recovery := c.recovery) == c;
  }

  /** A running service that restarts on failure and has no failure command keeps the one the script gave it. */
  lemma ForeignCommandStays(s: Snapshot, command: string, services: Services)
    requires s.name == Native && s.running && s.recoveryRead && s.config.recovery.command.None?
    requires services.native == Registered(s.config.(recovery := s.config.recovery.(command := Some(command))), Running)
    ensures RolledBack(s, true, services).config.recovery.command == Some(command)
    ensures RolledBack(s, true, services) != Original(s)
  {
  }

  // ------------------------------------------------------- comparing copies

  const BLOCK: nat := 65536

  /** One read from a file stream: what is there to be had, up to a block, and what came. */
  datatype Read = Read(asked: nat, got: nat)

  predicate Short(r: Read) { r.got < r.asked }

  predicate AnyShort(all: seq<Read>) { exists i | 0 <= i < |all| :: Short(all[i]) }

  lemma AnyShortSnoc(all: seq<Read>, r: Read)
    ensures AnyShort(all + [r]) <==> AnyShort(all) || Short(r)
  {
    var more := all + [r];
    assert forall i | 0 <= i < |all| :: more[i] == all[i];
    assert more[|all|] == r;
  }

  /** Read i gives at most caps[i] bytes; reads that `caps` says nothing about are complete. */
  function Got(asked: nat, caps: seq<nat>, i: nat): nat {
    if i < |caps| && caps[i] < asked then caps[i] else asked
  }

  /** No read of a block or less falls short. */
  predicate Complete(caps: seq<nat>) { forall i | 0 <= i < |caps| :: caps[i] >= BLOCK }

  /** `equal_file`: block by block; either stream may fail at any read. */
  method EqualFile(a: bytes, b: bytes, caps: seq<nat>) returns (equal: bool, faulted: bool, ghost all: seq<Read>)
    ensures forall i | 0 <= i < |all| :: all[i].asked <= BLOCK && all[i].got == Got(all[i].asked, caps, i)
    ensures faulted <==> AnyShort(all)
    ensures equal ==> a == b && !faulted
    ensures !faulted ==> (equal <==> a == b)
    ensures Complete(caps) ==> !faulted && (equal <==> a == b)
  {
    faulted, all := false, [];
    if |a| != |b| { return false, false, all; }
    var pos, turn := 0, 0;
    var good := true;
    while good
      invariant 0 <= pos <= |a| == |b| && a[..pos] == b[..pos]
      invariant turn == |all|
      invariant forall i | 0 <= i < |all| :: all[i].asked <= BLOCK && all[i].got == Got(all[i].asked, caps, i)
      invariant faulted <==> AnyShort(all)
      invariant good ==> !faulted
      invariant !good && !faulted ==> pos == |a|
      decreases good, |a| - pos
    {
      var n := if |a| - pos < BLOCK then |a| - pos else BLOCK;
      var x := Got(n, caps, turn);
      AnyShortSnoc(all, Read(n, x));
      all := all + [Read(n, x)];
      if x < n { n, faulted := x, true; }
      var y := Got(n, caps, turn + 1);
      AnyShortSnoc(all, Read(n, y));
      all := all + [Read(n, y)];
      if y < n { return false, true, all; }
      turn := turn + 2;
      if a[pos..pos + n] != b[pos..pos + n] { return false, faulted, all; }
      assert a[..pos + n] == a[..pos] + a[pos..pos + n] && b[..pos + n] == b[..pos] + b[pos..pos + n];
      pos := pos + n;
      if n < BLOCK { good := false; }
      if faulted { good := false; }
    }
    equal := !faulted;
    assert a[..|a|] == a && b[..|b|] == b;
  }

  datatype Item = Item(path: string, entry: Entry)

  /** The tree a directory listing describes. */
  function TreeOf(items: seq<Item>): Tree {
    if items == [] then map[]
    else TreeOf(items[..|items| - 1])[items[|items| - 1].path := items[|items| - 1].entry]
  }

  /** A listing names every path once. */
  predicate Listing(items: seq<Item>) {
    forall i, j | 0 <= i < j < |items| :: items[i].path != items[j].path
  }

  lemma {:induction false} TreeHolds(items: seq<Item>, i: nat)
    requires Listing(items) && i < |items|
    ensures items[i].path in TreeOf(items) && TreeOf(items)[items[i].path] == items[i].entry
    decreases |items|
  {
    if i < |items| - 1 { TreeHolds(items[..|items| - 1], i); }
  }

  /** The tree of a listing holds exactly what is listed, byte for byte. */
  lemma {:induction false} TreeHoldsOnly(items: seq<Item>, path: string)
    requires path in TreeOf(items)
    ensures exists i | 0 <= i < |items| :: items[i].path == path && items[i].entry == TreeOf(items)[path]
    decreases |items|
  {
    var last := |items| - 1;
    if items[last].path != path {
      TreeHoldsOnly(items[..last], path);
      var i :| 0 <= i < last && items[..last][i].path == path && items[..last][i].entry == TreeOf(items)[path];
      assert items[i].path == path;
    }
  }

  // ------------------------------------------------------------ the machine

  datatype Outcome = Refused | Upgraded | Restored | Stuck

  class Machine {
    var disk: Disk
    var services: Services
    ghost var history: seq<Disk>          // the disk after every change to it
    ghost var atMove: Option<Services>    // the services when the old directory was last moved to the backup
    ghost var scripted: bool              // the install script was started
    ghost var atScript: Services          // the services when it was
    ghost var atRollback: Services        // the services when a rollback began

    constructor (disk: Disk, services: Services)
      ensures this.disk == disk && this.services == services && history == [disk] && !scripted
    {
      this.disk, this.services, history, atMove := disk, services, [disk], None;
      scripted, atScript, atRollback := false, services, services;
    }

    /** Something outside that may go wrong, but does not while all is calm. */
    method Chance(calm: bool) returns (ok: bool)
      ensures calm ==> ok
    {
      ok := *;
      ok := ok || calm;
    }

    /** How often a loop looks again before it gives up. */
    method Patience(calm: bool) returns (turns: nat)
      ensures calm ==> turns > 0
    {
      turns :| calm ==> turns > 0;
    }

    /** `fs::rename` of a directory: it takes a name that is free, or nothing happens. */
    method Rename(from: Place, to: Place, calm: bool) returns (ok: bool)
      modifies this`disk, this`history, this`atMove
      ensures calm && old(disk).Get(from).Some? && old(disk).Get(to).None? ==> ok
      ensures ok ==> old(disk).Get(from).Some? && old(disk).Get(to).None?
      ensures atMove == if ok && to == Backup then Some(services) else old(atMove)
      ensures disk == if ok then Renamed(old(disk), from, to) else old(disk)
      ensures history == if ok then old(history) + [disk] else old(history)
    {
      if disk.Get(from).None? || disk.Get(to).Some? { return false; }
      ok := Chance(calm);
      if ok {
        disk := Renamed(disk, from, to);
        history := history + [disk];
        if to == Backup { atMove := Some(services); }
      }
    }

    /** `copy_all`: every file is compared with its original after it was copied. */
    method CopyAll(items: seq<Item>, id: nat, calm: bool) returns (ok: bool, ghost more: seq<Disk>)
      modifies this`disk, this`history
      ensures ok ==> Supported(items)
      ensures calm && old(disk).staged.None? && Supported(items) ==> ok
      ensures ok ==> old(disk).staged.None? && disk == old(disk).(staged := Some(Directory(id, TreeOf(items))))
      ensures disk.target == old(disk).target && disk.backup == old(disk).backup && disk.failed == old(disk).failed
      ensures disk.staged == old(disk).staged || (disk.staged.Some? && disk.staged.value.id == id)
      ensures history == old(history) + more && OnlyStaged(more, old(disk), id)
    {
      more := [];
      assert history + more == history;
      if disk.staged.Some? { return false, more; }
      var done: Tree := map[];
      ok := Chance(calm);
      if !ok { return false, more; }
      disk := disk.(staged := Some(Directory(id, done)));
      history, more := history + [disk], more + [disk];
      for i := 0 to |items|
        invariant done == TreeOf(items[..i]) && Supported(items[..i])
        invariant disk == old(disk).(staged := Some(Directory(id, done)))
        invariant history == old(history) + more && OnlyStaged(more, old(disk), id)
      {
        var how: Copying := *;
        if calm { how := Perfect(items[i].entry); }
        var copied: Entry;
        ok, copied := CopyEntry(items[i].entry, how);
        if copied != Unsupported {
          disk := disk.(staged := Some(Directory(id, done[items[i].path := copied])));
          history, more := history + [disk], more + [disk];
        }
        if !ok { return; }
        done := done[items[i].path := copied];
        assert items[..i + 1][..i] == items[..i];
      }
      assert items[..|items|] == items;
      ok := true;
    }

    // ---------------------------------------------------------- services

    /** A handle to a service that is being deleted was closed: the service may be gone now. */
    method CloseHandle(name: Name, calm: bool)
      modifies this`services
      ensures calm ==> !services.Get(name).PendingDelete?
      ensures services == old(services) ||
              (old(services).Get(name).PendingDelete? && services == old(services).Put(name, Absent))
    {
      var gone := Chance(calm);
      if gone && services.Get(name).PendingDelete? { services := services.Put(name, Absent); }
    }

    method SetRun(name: Name, run: Run)
      modifies this`services
      ensures services == old(services).Put(name, InState(old(services).Get(name), run))
    {
      services := services.Put(name, InState(services.Get(name), run));
    }

    /** `stop`: nothing to do for a missing service; otherwise wait, for a while, until it has stopped. */
    method StopService(name: Name, calm: bool) returns (ok: bool)
      modifies this`services
      ensures calm ==> ok && !services.Get(name).PendingDelete?
      ensures Others(old(services), services, name)
      ensures Stopping(old(services).Get(name), services.Get(name), ok)
    {
      var accessible := Chance(calm);
      if services.Get(name).Absent? { return true; }
      if !accessible { return false; }
      if services.Get(name).run != Stopped {
        var told := Chance(calm);
        if !told { return false; }
        SetRun(name, Changing);
        var patience := Patience(calm);
        while services.Get(name).run != Stopped && patience > 0
          invariant Others(old(services), services, name)
          invariant !services.Get(name).Absent?
          invariant calm ==> patience > 0 || services.Get(name).run == Stopped
          invariant services.Get(name) == InState(old(services.Get(name)), services.Get(name).run)
          decreases patience
        {
          var stopped := Chance(calm);
          if stopped { SetRun(name, Stopped); }
          patience := patience - 1;
        }
      }
      ok := services.Get(name).run == Stopped;
      CloseHandle(name, calm);
    }

    /** `remove`: stop, delete, and wait, for a while, until the service is gone. */
    method RemoveService(name: Name, calm: bool) returns (ok: bool)
      modifies this`services
      ensures calm ==> ok
      ensures Others(old(services), services, name)
      ensures ok ==> services.Get(name).Absent?
      ensures services.Get(name).Registered? ==>
                old(services).Get(name).Registered? && services.Get(name).config == old(services).Get(name).config
    {
      ok := StopService(name, calm);
      if !ok { return; }
      if services.Get(name).Registered? {
        var deleted := Chance(calm);
        if !deleted { return false; }
        services := services.Put(name, PendingDelete(services.Get(name).config, services.Get(name).run));
      }
      var patience := Patience(calm);
      while !services.Get(name).Absent? && patience > 0
        invariant Others(old(services), services, name) && !services.Get(name).Registered?
        invariant calm ==> patience > 0 || services.Get(name).Absent?
        decreases patience
      {
        CloseHandle(name, calm);
        patience := patience - 1;
      }
      ok := services.Get(name).Absent?;
    }

    /** New settings for a registered service. One marked for deletion accepts none. */
    method Configure(name: Name, config: Config, calm: bool) returns (ok: bool)
      modifies this`services
      ensures calm ==> (ok <==> old(services).Get(name).Registered?)
      ensures ok ==> old(services).Get(name).Registered?
      ensures ok ==> services == old(services).Put(name, Registered(config, old(services).Get(name).run))
      ensures !ok ==> services == old(services)
    {
      ok := Chance(calm);
      match services.Get(name) {
        case Registered(_, run) =>
          if ok { services := services.Put(name, Registered(config, run)); }
        case _ => ok := false;
      }
    }

    /** The registration itself: created anew, or its basic settings changed. */
    method RestoreRegistration(s: Snapshot, calm: bool) returns (ok: bool)
      modifies this`services
      ensures calm ==> (ok <==> !old(services).Get(s.name).PendingDelete?)
      ensures Others(old(services), services, s.name)
      ensures ok ==> !old(services).Get(s.name).PendingDelete?
      ensures ok ==> services.Get(s.name) == Basic(s, old(services).Get(s.name))
    {
      var found := services.Get(s.name);
      if found.Absent? {
        ok := Chance(calm);
        if ok { services := services.Put(s.name, Registered(Created(s.config), Stopped)); }
      } else {
        var c := if found.Registered? then found.config else s.config;
        ok := Configure(s.name, s.config.(delayed := c.delayed, description := c.description,
                                          recovery := c.recovery, failureFlag := c.failureFlag), calm);
      }
    }

    /** `restore`: registration, extended settings one by one, and the running state if it was running. */
    method Restore(s: Snapshot, calm: bool) returns (ok: bool)
      modifies this`services
      ensures calm ==> (ok <==> !old(services).Get(s.name).PendingDelete?)
      ensures Others(old(services), services, s.name)
      ensures ok ==> !old(services).Get(s.name).PendingDelete?
      ensures ok ==> services.Get(s.name) == AfterRestore(s, old(services).Get(s.name))
    {
      ok := RestoreRegistration(s, calm);
      if !ok { return; }
      ok := Configure(s.name, services.Get(s.name).config.(delayed := s.config.delayed), calm);
      if !ok { return; }
      ok := Configure(s.name, services.Get(s.name).config.(description := s.config.description), calm);
      if !ok { return; }
      if s.recoveryRead {
        var found := services.Get(s.name).config.recovery;
        ok := Configure(s.name, services.Get(s.name).config.(recovery := Applied(s.config.recovery, found)), calm);
        if !ok { return; }
      }
      ok := Configure(s.name, services.Get(s.name).config.(failureFlag := s.config.failureFlag), calm);
      if !ok { return; }
      if s.running { ok := StartAgain(s.name, calm); }
    }

    method StartAgain(name: Name, calm: bool) returns (ok: bool)
      requires services.Get(name).Registered?
      modifies this`services
      ensures Others(old(services), services, name)
      ensures services.Get(name).Registered? && services.Get(name).config == old(services).Get(name).config
      ensures ok ==> services.Get(name).run == Running
      ensures calm ==> ok
    {
      ok := Chance(calm);
      if !ok { return; }
      if services.Get(name).run == Stopped { SetRun(name, Changing); }
      var patience := Patience(calm);
      while services.Get(name).run != Running && patience > 0
        invariant Others(old(services), services, name)
        invariant services.Get(name).Registered?
        invariant calm ==> patience > 0 || services.Get(name).run == Running
        invariant services.Get(name) == InState(old(services.Get(name)), services.Get(name).run)
        decreases patience
      {
        var run: Run := *;
        SetRun(name, if calm then Running else run);
        patience := patience - 1;
      }
      ok := services.Get(name).run == Running;
    }

    // --------------------------------------------------------- transaction

    /**
     * The install script: anything at all to both services and inside the new directory. While all is calm, what it
     * does includes starting the native service.
     */
    method RunScript(calm: bool) returns (ok: bool)
      modifies this`disk, this`services, this`history, this`scripted, this`atScript
      ensures scripted && atScript == old(services)
      ensures calm ==> ok && Serving(services)
      ensures disk.staged == old(disk).staged && disk.backup == old(disk).backup && disk.failed == old(disk).failed
      ensures disk.target == old(disk).target ||
              (disk.target.Some? && old(disk).target.Some? && disk.target.value.id == old(disk).target.value.id)
      ensures history == old(history) + [disk]
    {
      ok := Chance(calm);
      scripted, atScript := true, services;
      services := *;
      if calm {
        var c: Config := *;
        services := services.(native := Registered(c.(start := AUTO_START, delayed := false), Running));
      }
      var tree: Tree := *;
      if disk.target.Some? { disk := disk.(target := Some(disk.target.value.(tree := tree))); }
      history := history + [disk];
    }

    /** `verify`: the native service runs and starts automatically; health and version are asked over HTTP. */
    method Verify(calm: bool) returns (ok: bool)
      ensures ok ==> services.native.Registered? && services.native.run == Running
                     && services.native.config.start == AUTO_START && !services.native.config.delayed
      ensures calm ==> (ok <==> Serving(services))
    {
      ok := Chance(calm);
      match services.native {
        case Absent => ok := false;
        case PendingDelete(_, _) => ok := false;
        case Registered(c, run) => ok := ok && run == Running && c.start == AUTO_START && !c.delayed;
      }
    }

    /**
     * `discover`: exactly one of the two services is there, and it is running or stopped. The kind of its program is
     * an input.
     */
    method Discover(kind: Kind) returns (s: Option<Snapshot>)
      ensures s.Some? <==> Discoverable(services)
      ensures s.Some? ==> Seen(s.value, services) && s.value.kind == kind
    {
      if services.native.Absent? == services.managed.Absent? { return None; }
      var name := if services.native.Absent? then Managed else Native;
      var svc := services.Get(name);
      if svc.run == Changing { return None; }
      var read: bool := *;
      s := Some(Snapshot(name, kind, svc.config, read, svc.run == Running));
    }

    /** The replacement proper: everything inside the try block. */
    method Install(s: Snapshot, calm: bool, ghost previous: Directory, ghost replacement: Directory)
      returns (ok: bool, moved: bool, installed: bool)
      requires Ready(disk, previous, replacement) && Seen(s, services) && !scripted
      requires forall d | d in history :: Kept(d, previous)
      modifies this
      ensures forall d | d in history :: Kept(d, previous)
      ensures Midway(disk, previous, replacement, moved)
      ensures moved ==> atMove.Some? && IsStopped(atMove.value.Get(s.name))
      ensures installed == scripted
      ensures installed ==>
                if s.kind == ManagedProgram then atScript.Get(s.name).Absent? else IsStopped(atScript.Get(s.name))
      ensures !installed ==> Others(old(services), services, s.name)
      ensures !installed && services.Get(s.name).Registered? ==>
                old(services).Get(s.name).Registered? && services.Get(s.name).config == s.config
      ensures calm ==> ok
      ensures ok ==> moved && installed && Serving(services) && disk.target.Some? && disk.staged.None?
      ensures ok ==> Disk(Some(replacement), None, Some(previous), None) in history
    {
      moved, installed := false, false;
      ok := StopService(s.name, calm);
      if !ok { return; }
      ok := Rename(Target, Backup, calm);
      if !ok { return; }
      moved := true;
      ok := Rename(Staged, Target, calm);
      if !ok { return; }
      assert disk == Disk(Some(replacement), None, Some(previous), None) && disk in history;
      ok := Chance(calm);
      if !ok { return; }
      if s.kind == ManagedProgram {
        ok := RemoveService(s.name, calm);
        if !ok { return; }
      }
      installed := true;
      ok := RunScript(calm);
      if !ok { return; }
      ok := Verify(calm);
    }

    /** The rollback: stop what may run, put the directories back, restore the service. */
    method Rollback(
      s: Snapshot, moved: bool, installed: bool, calm: bool, ghost previous: Directory, ghost replacement: Directory)
      returns (ok: bool)
      requires Midway(disk, previous, replacement, moved)
      requires forall d | d in history :: Kept(d, previous)
      modifies this`disk, this`services, this`history, this`atMove, this`atRollback
      ensures atRollback == old(services)
      ensures Kept(disk, previous) && forall d | d in history :: Kept(d, previous)
      ensures ok ==> disk.target == Some(previous) && disk.backup.None?
      ensures calm ==> (ok <==> Reachable(s, installed, old(services)))
      ensures ok ==> services.Get(s.name) == RolledBack(s, installed, old(services))
      ensures ok ==> (services.Get(s.name) == Original(s) <==> Restorable(s, installed, old(services)))
      ensures ok && s.name == Managed ==> services.native == if installed then Absent else old(services).native
      ensures ok && s.name == Native ==> services.managed == old(services).managed
    {
      atRollback := services;
      RollbackRestoresIff(s, installed, services);
      ok := Quiesce(s, installed, calm);
      if !ok { return; }
      ok := PutBack(moved, calm, previous, replacement);
      if !ok { return; }
      ok := Restore(s, calm);
    }

    method Quiesce(s: Snapshot, installed: bool, calm: bool) returns (ok: bool)
      modifies this`services
      ensures calm ==> ok && (services.Get(s.name).PendingDelete? <==> !Reachable(s, installed, old(services)))
      ensures ok ==> services.Get(s.name).PendingDelete? ||
                     services.Get(s.name) == FoundAfter(old(services).Get(s.name), StopsOld(s, installed))
      ensures ok && s.name == Managed ==> services.native == if installed then Absent else old(services).native
      ensures ok && s.name == Native ==> services.managed == old(services).managed
    {
      if installed {
        ok := StopService(Native, calm);
        if !ok { return; }
        if s.name != Native { ok := RemoveService(Native, calm); }
      } else {
        ok := StopService(s.name, calm);
      }
    }

    method PutBack(moved: bool, calm: bool, ghost previous: Directory, ghost replacement: Directory) returns (ok: bool)
      requires Midway(disk, previous, replacement, moved)
      requires forall d | d in history :: Kept(d, previous)
      modifies this`disk, this`history, this`atMove
      ensures Kept(disk, previous) && forall d | d in history :: Kept(d, previous)
      ensures calm ==> ok
      ensures ok ==> disk.target == Some(previous) && disk.backup.None?
    {
      if !moved { return true; }
      if disk.target.Some? {
        ok := Rename(Target, Failed, calm);
        if !ok { return; }
      }
      ok := Rename(Backup, Target, calm);
    }

    /**
     * `execute` after the package was checked. The old directory is never lost; the outcome
     * says where everything is. `calm` says that nothing outside goes wrong up to a rollback, `calmBack` that nothing
     * does during one.
     */
    method Execute(
      items: seq<Item>, kind: Kind, checkOnly: bool, id: nat, calm: bool, calmBack: bool, ghost previous: Directory)
      returns (outcome: Outcome, ghost s: Snapshot)
      requires disk.target == Some(previous) && Kept(disk, previous) && id != previous.id && !scripted
      requires forall d | d in history :: Kept(d, previous)
      modifies this
      ensures Kept(disk, previous) && forall d | d in history :: Kept(d, previous)
      ensures checkOnly ==> outcome == Refused && disk == old(disk)
      ensures outcome == Refused ==>
                services == old(services) && disk.(staged := None) == old(disk).(staged := None)
      ensures outcome != Refused ==> Seen(s, old(services)) && s.kind == kind
      ensures outcome != Refused ==> Accepted(old(services), old(disk), items, checkOnly)
      ensures calm ==> outcome == if Accepted(old(services), old(disk), items, checkOnly) then Upgraded else Refused
      ensures calmBack && outcome in {Restored, Stuck} ==>
                (outcome == Restored <==> Reachable(s, scripted, atRollback))
      ensures outcome == Upgraded ==>
                && disk.backup == Some(previous) && disk.target.Some? && disk.target.value.id == id && Serving(services)
                && Disk(Some(Directory(id, TreeOf(items))), None, Some(previous), None) in history
      ensures outcome == Restored ==> disk.target == Some(previous) && disk.backup.None?
      ensures outcome == Restored ==> (services.Get(s.name) == Original(s) <==> Restorable(s, scripted, atRollback))
      ensures outcome == Restored && AlwaysRestorable(s) ==> services.Get(s.name) == Original(s)
      ensures outcome == Restored && !scripted && s.recoveryRead ==> services.Get(s.name) == Original(s)
      ensures outcome == Restored && (!scripted || s.name == Managed) ==>
                services.Get(Other(s.name)) == old(services).Get(Other(s.name))
    {
      s := *;
      var found := Discover(kind);
      if found.None? || checkOnly { return Refused, s; }
      s := found.value;
      if disk.backup.Some? || disk.staged.Some? || disk.failed.Some? { return Refused, s; }
      ghost var more;
      var ok;
      ok, more := CopyAll(items, id, calm);
      StagingKeeps(more, old(disk), id, previous);
      if !ok { return Refused, s; }
      ok := Chance(calm);
      if !ok { return Refused, s; }
      outcome := Replace(found.value, calm, calmBack, previous, Directory(id, TreeOf(items)));
    }

    /** The transaction: the replacement, and if it fails the rollback. */
    method Replace(s: Snapshot, calm: bool, calmBack: bool, ghost previous: Directory, ghost replacement: Directory)
      returns (outcome: Outcome)
      requires Ready(disk, previous, replacement) && Seen(s, services) && !scripted
      requires forall d | d in history :: Kept(d, previous)
      modifies this
      ensures Kept(disk, previous) && forall d | d in history :: Kept(d, previous)
      ensures outcome != Refused
      ensures calm ==> outcome == Upgraded
      ensures calmBack && outcome != Upgraded ==> (outcome == Restored <==> Reachable(s, scripted, atRollback))
      ensures outcome == Upgraded ==>
                && disk.backup == Some(previous) && Serving(services)
                && disk.target.Some? && disk.target.value.id == replacement.id
                && Disk(Some(replacement), None, Some(previous), None) in history
      ensures outcome == Restored ==> disk.target == Some(previous) && disk.backup.None?
      ensures outcome == Restored ==> (services.Get(s.name) == Original(s) <==> Restorable(s, scripted, atRollback))
      ensures outcome == Restored && AlwaysRestorable(s) ==> services.Get(s.name) == Original(s)
      ensures outcome == Restored && !scripted && s.recoveryRead ==> services.Get(s.name) == Original(s)
      ensures outcome == Restored && (!scripted || s.name == Managed) ==>
                services.Get(Other(s.name)) == old(services).Get(Other(s.name))
    {
      var ok, moved, installed := Install(s, calm, previous, replacement);
      if ok { return Upgraded; }
      if !scripted { BeforeScriptRollbackRestores(s, services); }
      ok := Rollback(s, moved, installed, calmBack, previous, replacement);
      outcome := if ok then Restored else Stuck;
    }
  }

  /** Everything but this service is as before. */
  predicate Others(before: Services, after: Services, name: Name) {
    after == before.Put(name, after.Get(name))
  }

  predicate Stopping(before: Service, after: Service, ok: bool) {
    match before
    case Absent => after.Absent? && ok
    case Registered(c, run) => after.Registered? && after.config == c && (ok ==> after.run == Stopped)
    case PendingDelete(c, run) =>
      after.Absent? || (after.PendingDelete? && after.config == c && (ok ==> after.run == Stopped))
  }

  /** The registration after its basic settings were restored. */
  function Basic(s: Snapshot, found: Service): Service {
    if found.Registered? then
      Registered(s.config.(delayed := found.config.delayed, description := found.config.description,
                           recovery := found.config.recovery, failureFlag := found.config.failureFlag), found.run)
    else Registered(Created(s.config), Stopped)
  }

  /** Between two changes only the staged copy differs. */
  predicate OnlyStaged(disks: seq<Disk>, before: Disk, id: nat) {
    forall d | d in disks ::
      d.target == before.target && d.backup == before.backup && d.failed == before.failed &&
      d.staged.Some? && d.staged.value.id == id
  }

  /** How one entry is copied: whether it gets to an end, what is written, and what the comparison can read. */
  datatype Copying = Copying(done: bool, written: bytes, caps: seq<nat>)

  function Perfect(entry: Entry): Copying {
    Copying(true, if entry.File? then entry.data else [], [])
  }

  /** One entry of the copy. What copy_file wrote may be damaged; then the comparison fails. */
  method CopyEntry(entry: Entry, how: Copying) returns (ok: bool, copied: Entry)
    ensures ok ==> copied == entry != Unsupported
    ensures how.done && entry == Folder ==> ok
    ensures how.done && entry.File? && Complete(how.caps) ==> (ok <==> how.written == entry.data)
  {
    ok := how.done;
    match entry {
      case Folder => copied := if ok then Folder else Unsupported;
      case Unsupported => ok, copied := false, Unsupported;
      case File(data) =>
        copied := File(how.written);
        if ok {
          var faulted;
          ghost var all;
          ok, faulted, all := EqualFile(data, how.written, how.caps);
        }
    }
  }

  /** Everything in the package is a file or a folder. */
  predicate Supported(items: seq<Item>) { forall i | 0 <= i < |items| :: items[i].entry != Unsupported }

  /** One of the two services is there, and it is not being started or stopped. */
  predicate Discoverable(services: Services) {
    || (services.managed.Absent? && !services.native.Absent? && services.native.run != Changing)
    || (services.native.Absent? && !services.managed.Absent? && services.managed.run != Changing)
  }

  /** An upgrade that the checks let through. */
  predicate Accepted(services: Services, disk: Disk, items: seq<Item>, checkOnly: bool) {
    && Discoverable(services) && !checkOnly && Supported(items)
    && disk.backup.None? && disk.staged.None? && disk.failed.None?
  }

  /** The rollback can open the old service: it waits for a deletion only of a service that it stops. */
  predicate Reachable(s: Snapshot, installed: bool, services: Services) {
    StopsOld(s, installed) || !services.Get(s.name).PendingDelete?
  }

  function Other(name: Name): Name { if name == Native then Managed else Native }

  /** The snapshot describes the one service there is. */
  predicate Seen(s: Snapshot, services: Services) {
    && services.Get(s.name) in {Original(s), PendingDelete(s.config, Original(s).run)}
    && services.Get(Other(s.name)).Absent?
  }

  /** Before the replacement starts: the copy is staged beside the old directory. */
  predicate Ready(disk: Disk, previous: Directory, replacement: Directory) {
    previous.id != replacement.id && disk == Disk(Some(previous), Some(replacement), None, None)
  }

  /** While the replacement or its rollback is under way. */
  predicate Midway(disk: Disk, previous: Directory, replacement: Directory, moved: bool) {
    && previous.id != replacement.id && disk.failed.None?
    && (disk.staged.Some? ==> disk.staged == Some(replacement))
    && (if moved then disk.backup == Some(previous) && (disk.target.Some? ==> disk.target.value.id == replacement.id)
        else disk.target == Some(previous) && disk.backup.None?)
  }

  predicate IsStopped(svc: Service) { svc.Absent? || svc.run == Stopped }

  /** The new service runs and starts automatically. */
  predicate Serving(services: Services) {
    && services.native.Registered? && services.native.run == Running
    && services.native.config.start == AUTO_START && !services.native.config.delayed
  }

  lemma StagingKeeps(disks: seq<Disk>, before: Disk, id: nat, previous: Directory)
    requires OnlyStaged(disks, before, id) && Kept(before, previous) && id != previous.id
    ensures forall d | d in disks :: Kept(d, previous)
  {
  }
}
