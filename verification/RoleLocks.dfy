/** Role writes, role deletes and creds reads under the striped role locks, in any interleaving: the outcome
    is that of some serial order, and a creds read finishes against the role still stored. */
module RoleLocks {
  import opened Wrappers
  import opened Roles

  type Pid = nat

  const STRIPES := 64

  // ----- Striping

  /** FNV-1a over the name's bytes; role names are ASCII. */
  function Fnv1a(name: string): bv32 {
    if name == "" then 2166136261
    else (Fnv1a(name[..|name| - 1]) ^ ((name[|name| - 1] as int % 256) as bv32)) * 16777619
  }

  function Stripe(name: string): (i: nat)
    ensures i < STRIPES
  {
    (Fnv1a(name) as int) % STRIPES
  }

  // ----- One operation by itself

  datatype RoleOp = WriteRole(name: string, create: bool, fields: RoleFields) | DeleteRole(name: string)
      | ReadCreds(name: string)

  datatype Fate = Works | ReadFails | WriteFails

  datatype Answer = Wrote | Refused(e: RoleError) | Deleted | Minted(role: Role) | NoSuchRole | StorageFailed

  function Lookup(roles: map<string, Role>, name: string): Option<Role> {
    if name in roles then Some(roles[name]) else None
  }

  /** What the operation does to the stored roles, and answers, when nothing else runs. */
  function Serve(roles: map<string, Role>, op: RoleOp, fate: Fate): (map<string, Role>, Answer) {
    if fate.ReadFails? && !op.DeleteRole? then (roles, StorageFailed)
    else
      match op
      case WriteRole(name, create, fields) =>
        (match AcceptRole(Lookup(roles, name), create, fields)
         case Err(e) => (roles, Refused(e))
         case Ok(r) => if fate.WriteFails? then (roles, StorageFailed) else (roles[name := r], Wrote))
      case DeleteRole(name) => if fate.Works? then (roles - {name}, Deleted) else (roles, StorageFailed)
      case ReadCreds(name) =>
        (match Lookup(roles, name) case None => (roles, NoSuchRole) case Some(r) => (roles, Minted(r)))
  }

  // ----- The interleaved machine

  /** A creds read stays at Loaded while it mints. */
  datatype RolePc = Waiting(op: RoleOp) | Holding(op: RoleOp) | Loaded(op: RoleOp, role: Option<Role>)
      | Leaving(op: RoleOp)

  datatype Completed = Completed(p: Pid, op: RoleOp, fate: Fate, answer: Answer)

  datatype Table = Table(roles: map<string, Role>, locks: seq<Option<Pid>>, procs: map<Pid, RolePc>,
      done: seq<Completed>)

  datatype RoleStep = Arrive(p: Pid, op: RoleOp) | Lock(p: Pid) | Load(p: Pid, ok: bool)
      | Complete(p: Pid, ok: bool) | Unlock(p: Pid)

  function MoveTo(s: Table, p: Pid, pc: RolePc): Table { s.(procs := s.procs[p := pc]) }

  function Finish(s: Table, p: Pid, op: RoleOp, fate: Fate, roles: map<string, Role>, answer: Answer): Table {
    MoveTo(s.(roles := roles, done := s.done + [Completed(p, op, fate, answer)]), p, Leaving(op))
  }

  /** The handler's last act, on the role it loaded earlier. */
  function CompleteLoaded(s: Table, p: Pid, op: RoleOp, role: Option<Role>, ok: bool): Table {
    var fate := if ok then Works else WriteFails;
    match op
    case WriteRole(name, create, fields) =>
      (match AcceptRole(role, create, fields)
       case Err(e) => Finish(s, p, op, fate, s.roles, Refused(e))
       case Ok(r) => if ok then Finish(s, p, op, fate, s.roles[name := r], Wrote) else Finish(s, p, op, fate, s.roles, StorageFailed))
    case ReadCreds(_) =>
      (match role
       case None => Finish(s, p, op, fate, s.roles, NoSuchRole)
       case Some(r) => Finish(s, p, op, fate, s.roles, Minted(r)))
    case DeleteRole(_) => s
  }

  function RoleNext(s: Table, e: RoleStep): Table {
    match e
    case Arrive(p, op) => if p in s.procs then s else MoveTo(s, p, Waiting(op))
    case Lock(p) =>
      if p in s.procs && s.procs[p].Waiting? && |s.locks| == STRIPES && s.locks[Stripe(s.procs[p].op.name)].None?
      then MoveTo(s.(locks := s.locks[Stripe(s.procs[p].op.name) := Some(p)]), p, Holding(s.procs[p].op))
      else s
    case Load(p, ok) =>
      if p in s.procs && s.procs[p].Holding? && !s.procs[p].op.DeleteRole? then
        var op := s.procs[p].op;
        if ok then MoveTo(s, p, Loaded(op, Lookup(s.roles, op.name)))
        else Finish(s, p, op, ReadFails, s.roles, StorageFailed)
      else s
    case Complete(p, ok) =>
      if p !in s.procs then s
      else (match s.procs[p]
            case Holding(DeleteRole(name)) =>
              if ok then Finish(s, p, DeleteRole(name), Works, s.roles - {name}, Deleted)
              else Finish(s, p, DeleteRole(name), WriteFails, s.roles, StorageFailed)
            case Loaded(op, role) => CompleteLoaded(s, p, op, role, ok)
            case _ => s)
    case Unlock(p) =>
      if p in s.procs && s.procs[p].Leaving? && |s.locks| == STRIPES
      then s.(locks := s.locks[Stripe(s.procs[p].op.name) := None], procs := s.procs - {p})
      else s
  }

  function RoleRun(s: Table, steps: seq<RoleStep>): Table {
    if steps == [] then s else RoleNext(RoleRun(s, steps[..|steps| - 1]), steps[|steps| - 1])
  }

  // ----- The serial order

  function Replay(roles: map<string, Role>, done: seq<Completed>): map<string, Role> {
    if done == [] then roles
    else var last := done[|done| - 1]; Serve(Replay(roles, done[..|done| - 1]), last.op, last.fate).0
  }

  /** Each operation's answer is what it would have answered at its place in the order of completion. */
  predicate Explained(roles: map<string, Role>, done: seq<Completed>) {
    forall i :: 0 <= i < |done| ==> done[i].answer == Serve(Replay(roles, done[..i]), done[i].op, done[i].fate).1
  }

  lemma ReplayMore(roles: map<string, Role>, done: seq<Completed>, c: Completed)
    requires Explained(roles, done) && c.answer == Serve(Replay(roles, done), c.op, c.fate).1
    ensures Explained(roles, done + [c])
    ensures Replay(roles, done + [c]) == Serve(Replay(roles, done), c.op, c.fate).0
  {
    assert (done + [c])[..|done|] == done;
    forall i | 0 <= i < |done + [c]|
      ensures (done + [c])[i].answer == Serve(Replay(roles, (done + [c])[..i]), (done + [c])[i].op,
          (done + [c])[i].fate).1
    {
      if i < |done| { assert (done + [c])[..i] == done[..i]; }
    }
  }

  // ----- The invariant

  predicate Exclusive(s: Table) {
    && |s.locks| == STRIPES
    && (forall p :: p in s.procs && !s.procs[p].Waiting? ==> s.locks[Stripe(s.procs[p].op.name)] == Some(p))
    && (forall i :: 0 <= i < STRIPES && s.locks[i].Some? ==>
          s.locks[i].value in s.procs && !s.procs[s.locks[i].value].Waiting?
              && Stripe(s.procs[s.locks[i].value].op.name) == i)
  }

  /** What an operation loaded is what is stored. */
  predicate Current(s: Table) {
    forall p :: p in s.procs && s.procs[p].Loaded? ==>
      !s.procs[p].op.DeleteRole? && s.procs[p].role == Lookup(s.roles, s.procs[p].op.name)
  }

  predicate ValidRoles(roles: map<string, Role>) { forall n :: n in roles ==> ValidRole(roles[n]) }

  ghost predicate RoleInv(first: map<string, Role>, s: Table) {
    Exclusive(s) && Current(s) && ValidRoles(s.roles) && s.roles == Replay(first, s.done) && Explained(first, s.done)
  }

  /** Two operations past their lock on the same name are one. */
  lemma SameNameSameHolder(s: Table, p: Pid, q: Pid)
    requires Exclusive(s) && p in s.procs && q in s.procs && !s.procs[p].Waiting? && !s.procs[q].Waiting?
    requires s.procs[p].op.name == s.procs[q].op.name
    ensures p == q
  {
  }

  /** Completing an operation as it would run alone keeps everything. */
  lemma FinishKeeps(first: map<string, Role>, s: Table, p: Pid, op: RoleOp, fate: Fate)
    requires RoleInv(first, s) && p in s.procs && !s.procs[p].Waiting? && s.procs[p].op == op
    ensures RoleInv(first, Finish(s, p, op, fate, Serve(s.roles, op, fate).0, Serve(s.roles, op, fate).1))
  {
    var (roles, answer) := Serve(s.roles, op, fate);
    var t := Finish(s, p, op, fate, roles, answer);
    ReplayMore(first, s.done, Completed(p, op, fate, answer));
    if op.WriteRole? { AcceptedRoleIsValid(Lookup(s.roles, op.name), op.create, op.fields); }
    forall q | q in t.procs && t.procs[q].Loaded?
      ensures t.procs[q].role == Lookup(t.roles, t.procs[q].op.name)
    {
      if s.procs[q].op.name == op.name { SameNameSameHolder(s, p, q); }
    }
  }

  /** What the handler does with the role it loaded is what it would do with the role stored. */
  lemma CompletesAsServed(s: Table, p: Pid, op: RoleOp, role: Option<Role>, ok: bool)
    requires !op.DeleteRole? && role == Lookup(s.roles, op.name)
    ensures var fate := if ok then Works else WriteFails;
            CompleteLoaded(s, p, op, role, ok) == Finish(s, p, op, fate, Serve(s.roles, op, fate).0, Serve(s.roles,
                op, fate).1)
  {
  }

  /** Arriving, taking or releasing a lock, and loading touch neither the roles nor the order. */
  lemma QuietStepKeeps(first: map<string, Role>, s: Table, e: RoleStep)
    requires RoleInv(first, s) && (e.Arrive? || e.Lock? || e.Unlock?)
    ensures RoleInv(first, RoleNext(s, e))
  {
    hide Stripe; hide Lookup; hide Replay; hide Explained; hide ValidRoles; hide Finish; hide CompleteLoaded;
    assert RoleNext(s, e).roles == s.roles && RoleNext(s, e).done == s.done;
  }

  lemma LoadKeeps(first: map<string, Role>, s: Table, p: Pid)
    requires RoleInv(first, s) && p in s.procs && s.procs[p].Holding? && !s.procs[p].op.DeleteRole?
    ensures RoleInv(first, MoveTo(s, p, Loaded(s.procs[p].op, Lookup(s.roles, s.procs[p].op.name))))
  {
    hide Stripe; hide Lookup; hide Replay; hide Explained; hide ValidRoles;
  }

  lemma RoleStepKeeps(first: map<string, Role>, s: Table, e: RoleStep)
    requires RoleInv(first, s)
    ensures RoleInv(first, RoleNext(s, e))
  {
    hide Finish; hide Serve; hide CompleteLoaded; hide RoleInv; hide Stripe; hide Lookup; hide MoveTo;
    match e
    case Load(p, ok) =>
      if p in s.procs && s.procs[p].Holding? && !s.procs[p].op.DeleteRole? {
        if ok {
          LoadKeeps(first, s, p);
        } else {
          FinishKeeps(first, s, p, s.procs[p].op, ReadFails);
          ServeUnread(s.roles, s.procs[p].op);
        }
      }
    case Complete(p, ok) =>
      if p in s.procs {
        match s.procs[p]
        case Holding(DeleteRole(name)) =>
          FinishKeeps(first, s, p, DeleteRole(name), if ok then Works else WriteFails);
          ServeDelete(s.roles, name);
        case Loaded(op, role) =>
          LoadedIsCurrent(first, s, p);
          FinishKeeps(first, s, p, op, if ok then Works else WriteFails);
          CompletesAsServed(s, p, op, role, ok);
        case _ =>
      }
    case _ => QuietStepKeeps(first, s, e);
  }

  lemma LoadedIsCurrent(first: map<string, Role>, s: Table, p: Pid)
    requires RoleInv(first, s) && p in s.procs && s.procs[p].Loaded?
    ensures !s.procs[p].op.DeleteRole? && s.procs[p].role == Lookup(s.roles, s.procs[p].op.name)
  {
  }

  lemma ServeUnread(roles: map<string, Role>, op: RoleOp)
    requires !op.DeleteRole?
    ensures Serve(roles, op, ReadFails) == (roles, StorageFailed)
  {
  }

  lemma ServeDelete(roles: map<string, Role>, name: string)
    ensures Serve(roles, DeleteRole(name), Works) == (roles - {name}, Deleted)
    ensures Serve(roles, DeleteRole(name), WriteFails) == (roles, StorageFailed)
  {
  }

  // ----- Every run

  predicate Idle(s: Table) {
    |s.locks| == STRIPES && (forall i :: 0 <= i < STRIPES ==> s.locks[i] == None) && s.procs == map[] && s.done == [] && ValidRoles(s.roles)
  }

  /** Linearizability with no lost writes: whatever the interleaving, the stored roles are those of running
      the completed operations one after another, each answered what it answers there, and all are valid. */
  lemma {:induction false} RoleOpsAreLinearizable(s: Table, steps: seq<RoleStep>)
    requires Idle(s)
    ensures var t := RoleRun(s, steps);
            t.roles == Replay(s.roles, t.done) && Explained(s.roles, t.done) && ValidRoles(t.roles)
    ensures RoleInv(s.roles, RoleRun(s, steps))
  {
    if steps != [] {
      RoleOpsAreLinearizable(s, steps[..|steps| - 1]);
      RoleStepKeeps(s.roles, RoleRun(s, steps[..|steps| - 1]), steps[|steps| - 1]);
    }
  }

  /** Whatever ran before and beside it, a write that was answered Wrote stored, at its place in the order, the
      role that takes its fields over the role stored until then, and left every other role alone. */
  lemma WroteTakesFields(first: map<string, Role>, done: seq<Completed>, k: nat)
    requires Explained(first, done) && k < |done| && done[k].answer == Wrote
    ensures var before, after := Replay(first, done[..k]), Replay(first, done[..k + 1]);
            var op := done[k].op;
            && op.WriteRole? && op.name in after
            && TakesFields(after[op.name], if op.name in before then Some(before[op.name]) else None, op.create, op.fields)
            && after == before[op.name := after[op.name]]
  {
    hide AcceptRole; hide TakesFields;
    var before, op := Replay(first, done[..k]), done[k].op;
    assert done[..k + 1][..k] == done[..k] && done[..k + 1][k] == done[k];
    assert done[k].answer == Serve(before, op, done[k].fate).1;
    AcceptedTakesFields(Lookup(before, op.name), op.create, op.fields);
  }

  /** The order respects real time: an operation joins it by its own step, once, while it holds its lock. */
  lemma CompletesInside(s: Table, e: RoleStep)
    ensures var t := RoleNext(s, e);
            t.done == s.done ||
            (&& (e.Load? || e.Complete?) && e.p in s.procs && (s.procs[e.p].Holding? || s.procs[e.p].Loaded?)
             && e.p in t.procs && t.procs[e.p] == Leaving(s.procs[e.p].op)
             && |t.done| == |s.done| + 1 && t.done[..|s.done|] == s.done
             && t.done[|s.done|].p == e.p && t.done[|s.done|].op == s.procs[e.p].op)
  {
  }

  /** A creds read that began on a role finishes with that role still stored: from its load to its unlock no
      write or delete of that name completes. */
  lemma CredsFinishOnStoredRole(s: Table, steps: seq<RoleStep>, p: Pid)
    requires Idle(s)
    requires var t := RoleRun(s, steps); p in t.procs && t.procs[p].Loaded? && t.procs[p].op.ReadCreds?
    ensures var t := RoleRun(s, steps);
            var u := RoleNext(t, Complete(p, true));
            var answer := match t.procs[p].role case Some(r) => Minted(r) case None => NoSuchRole;
            && t.procs[p].role == Lookup(t.roles, t.procs[p].op.name) && u.roles == t.roles
            && u.done == t.done + [Completed(p, t.procs[p].op, Works, answer)]
    ensures forall q, ok :: q != p ==>
              var t := RoleRun(s, steps);
              Lookup(RoleNext(t, Complete(q, ok)).roles, t.procs[p].op.name) == t.procs[p].role
  {
    hide RoleInv; hide Lookup; hide RoleRun; hide RoleNext; hide Serve; hide Finish; hide Idle;
    RoleOpsAreLinearizable(s, steps);
    var t := RoleRun(s, steps);
    LoadedIsCurrent(s.roles, t, p);
    CompletesNow(t, p);
    forall q, ok | q != p
      ensures Lookup(RoleNext(t, Complete(q, ok)).roles, t.procs[p].op.name) == t.procs[p].role
    {
      RoleStepKeeps(s.roles, t, Complete(q, ok));
      CompleteMovesOne(t, q, ok, p);
      LoadedIsCurrent(s.roles, RoleNext(t, Complete(q, ok)), p);
    }
  }

  lemma CompletesNow(t: Table, p: Pid)
    requires p in t.procs && t.procs[p].Loaded? && t.procs[p].op.ReadCreds?
    ensures var u := RoleNext(t, Complete(p, true));
            var answer := match t.procs[p].role case Some(r) => Minted(r) case None => NoSuchRole;
            u.roles == t.roles && u.done == t.done + [Completed(p, t.procs[p].op, Works, answer)]
  {
  }

  lemma CompleteMovesOne(t: Table, q: Pid, ok: bool, p: Pid)
    requires q != p && p in t.procs
    ensures p in RoleNext(t, Complete(q, ok)).procs && RoleNext(t, Complete(q, ok)).procs[p] == t.procs[p]
  {
    hide AcceptRole;
  }
}
