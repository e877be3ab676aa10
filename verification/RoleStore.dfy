/** The role handlers as the program they are: a stripe of mutexes in an array, the stored roles in a map,
    and other handlers running in between. Each is proved to be a run of the interleaved machine. */
module RoleStore {
  import opened Wrappers
  import opened Snapshot
  import opened Roles
  import opened RoleLocks

  /** The steps that remain to whoever holds a lock. */
  function Remaining(pc: RolePc): nat {
    match pc case Waiting(_) => 4 case Holding(_) => 3 case Loaded(_, _) => 2 case Leaving(_) => 1
  }

  function HolderStep(p: Pid, pc: RolePc): RoleStep {
    match pc
    case Waiting(_) => Lock(p)
    case Holding(op) => if op.DeleteRole? then Complete(p, false) else Load(p, false)
    case Loaded(_, _) => Complete(p, false)
    case Leaving(_) => Unlock(p)
  }

  /** One step of its holder frees a stripe or brings its release closer. */
  lemma StripeIsReleased(first: map<string, Role>, s: Table, i: nat)
    requires RoleInv(first, s) && i < STRIPES && s.locks[i].Some?
    ensures var p := s.locks[i].value;
            p in s.procs &&
            var t := RoleNext(s, HolderStep(p, s.procs[p]));
            |t.locks| == STRIPES
            && (t.locks[i] == None || (t.locks[i] == Some(p) && p in t.procs
                && Remaining(t.procs[p]) < Remaining(s.procs[p])))
  {
    hide AcceptRole; hide Stripe; hide Replay; hide Explained;
  }

  /** A completed operation, with its answer, after the first `before` of the order. */
  ghost predicate Served(done: seq<Completed>, before: nat, p: Pid, op: RoleOp, answer: Answer) {
    exists k :: before <= k < |done| && done[k].p == p && done[k].op == op && done[k].answer == answer
  }

  /** Among the operations completed since, this write stored the role that takes its fields over the one stored
      until then, and left every other role alone. */
  ghost predicate StoredGiven(first: map<string, Role>, done: seq<Completed>, from: nat, op: RoleOp)
    requires op.WriteRole?
  {
    exists k :: from <= k < |done| && done[k].op == op && StoresGiven(Replay(first, done[..k]), Replay(first, done[..k + 1]), op)
  }

  predicate StoresGiven(before: map<string, Role>, after: map<string, Role>, op: RoleOp)
    requires op.WriteRole?
  {
    && op.name in after && TakesFields(after[op.name], Lookup(before, op.name), op.create, op.fields)
    && after == before[op.name := after[op.name]]
  }

  lemma WroteWasStored(first: map<string, Role>, done: seq<Completed>, from: nat, p: Pid, op: RoleOp)
    requires Explained(first, done) && op.WriteRole? && Served(done, from, p, op, Wrote)
    ensures StoredGiven(first, done, from, op)
  {
    hide TakesFields; hide Replay; hide Explained;
    var k :| from <= k < |done| && done[k].p == p && done[k].op == op && done[k].answer == Wrote;
    WroteTakesFields(first, done, k);
    assert StoresGiven(Replay(first, done[..k]), Replay(first, done[..k + 1]), op);
  }

  lemma OthersMove(s: Table, e: RoleStep, p: Pid)
    requires e.p != p
    ensures p in s.procs <==> p in RoleNext(s, e).procs
    ensures p in s.procs ==> RoleNext(s, e).procs[p] == s.procs[p]
    ensures s.done <= RoleNext(s, e).done && |RoleNext(s, e).locks| == |s.locks|
  {
    hide AcceptRole; hide Stripe;
  }

  datatype RenewError = RoleMissing | RoleNotString | NameMissing | Unreadable | RoleGone

  class RoleBackend {
    var roles: map<string, Role>
    const roleLocks: array<Option<Pid>>
    var procs: map<Pid, RolePc>
    var done: seq<Completed>
    ghost var start: Table
    ghost var steps: seq<RoleStep>

    function View(): Table
      reads this, roleLocks
    {
      Table(roles, roleLocks[..], procs, done)
    }

    ghost predicate Valid()
      reads this, roleLocks
    {
      Idle(start) && roleLocks.Length == STRIPES && View() == RoleRun(start, steps)
    }

    twostate predicate Continues()
      reads this, roleLocks
    {
      Valid() && start == old(start) && old(steps) <= steps && old(done) <= done
    }

    ghost predicate At(p: Pid, pc: RolePc)
      reads this
    {
      p in procs && procs[p] == pc
    }

    constructor (roles: map<string, Role>)
      requires ValidRoles(roles)
      ensures Valid() && this.roles == roles && procs == map[] && done == [] && fresh(roleLocks)
    {
      this.roles := roles;
      roleLocks := new Option<Pid>[STRIPES](_ => None);
      procs, done := map[], [];
      start := Table(roles, seq(STRIPES, _ => None), map[], []);
      steps := [];
      new;
      assert roleLocks[..] == start.locks;
    }

    lemma IsInv()
      requires Valid()
      ensures RoleInv(start.roles, View()) && ValidRoles(roles) && Explained(start.roles, done)
    {
      RoleOpsAreLinearizable(start, steps);
    }

    method Took(e: RoleStep, s: Table)
      requires Idle(start) && roleLocks.Length == STRIPES && s == RoleRun(start, steps)
      requires roles == RoleNext(s, e).roles && roleLocks[..] == RoleNext(s, e).locks
      modifies `procs, `done, `steps
      ensures View() == RoleNext(s, e) && Valid() && steps == old(steps) + [e]
    {
      hide RoleNext;
      procs, done := RoleNext(s, e).procs, RoleNext(s, e).done;
      steps := steps + [e];
      assert steps[..|steps| - 1] == old(steps);
    }

    method Happens(e: RoleStep, p: Pid)
      requires Valid() && e.p != p
      modifies this, roleLocks
      ensures Continues() && View() == RoleNext(old(View()), e)
      ensures (p in procs <==> p in old(procs)) && (p in procs ==> procs[p] == old(procs)[p])
    {
      hide RoleNext; hide RoleRun; hide Idle;
      var s := View();
      var t := RoleNext(s, e);
      OthersMove(s, e, p);
      roles := t.roles;
      forall i | 0 <= i < STRIPES { roleLocks[i] := t.locks[i]; }
      assert roleLocks[..] == t.locks;
      Took(e, s);
    }

    /** The other handlers go on for a while. */
    method Yield(p: Pid)
      requires Valid()
      modifies this, roleLocks
      ensures Continues()
      ensures (p in procs <==> p in old(procs)) && (p in procs ==> procs[p] == old(procs)[p])
    {
      hide RoleNext; hide RoleRun; hide Idle; hide View;
      var others: seq<RoleStep> := *;
      for i := 0 to |others|
        invariant Valid() && start == old(start) && old(steps) <= steps && old(done) <= done
        invariant (p in procs <==> p in old(procs)) && (p in procs ==> procs[p] == old(procs)[p])
      {
        if others[i].p != p { Happens(others[i], p); }
      }
    }

    /** lockRole: blocks until the name's stripe is free, and takes it. */
    method LockRole(p: Pid, op: RoleOp)
      requires Valid() && p !in procs
      modifies this, roleLocks
      ensures Continues() && At(p, Holding(op)) && roleLocks[Stripe(op.name)] == Some(p)
    {
      hide RoleRun; hide Idle; hide Stripe; hide Finish; hide CompleteLoaded; hide Lookup;
      Yield(p);
      var s := View();
      Took(Arrive(p, op), s);
      AwaitStripe(p, op);
      s := View();
      roleLocks[Stripe(op.name)] := Some(p);
      Took(Lock(p), s);
    }

    method AwaitStripe(p: Pid, op: RoleOp)
      requires Valid() && At(p, Waiting(op))
      modifies this, roleLocks
      ensures Continues() && At(p, Waiting(op)) && roleLocks[Stripe(op.name)] == None
    {
      hide RoleRun; hide Idle; hide Stripe; hide RoleNext; hide HolderStep; hide Remaining;
      Yield(p);
      var i := Stripe(op.name);
      while roleLocks[i].Some?
        invariant Valid() && start == old(start) && old(steps) <= steps && old(done) <= done && At(p, Waiting(op))
        decreases if roleLocks[i].Some? && roleLocks[i].value in procs then Remaining(procs[roleLocks[i].value]) + 1 else 0
      {
        IsInv();
        StripeIsReleased(start.roles, View(), i);
        var holder := roleLocks[i].value;
        HolderIsOther(View(), p, holder, i);
        Happens(HolderStep(holder, procs[holder]), p);
      }
    }

    static lemma HolderIsOther(s: Table, p: Pid, holder: Pid, i: nat)
      requires Exclusive(s) && p in s.procs && s.procs[p].Waiting? && i < STRIPES && s.locks[i] == Some(holder)
          && holder in s.procs
      ensures HolderStep(holder, s.procs[holder]).p != p
    {
    }

    /** getRole under the lock; None if storage fails, which ends the operation. */
    method LoadRole(p: Pid, op: RoleOp, readable: bool) returns (role: Option<Option<Role>>)
      requires Valid() && At(p, Holding(op)) && !op.DeleteRole?
      modifies this, roleLocks
      ensures Continues() && role.Some? == readable
      ensures match role
              case Some(r) => At(p, Loaded(op, r)) && r == Lookup(roles, op.name)
              case None => At(p, Leaving(op)) && Served(done, |old(done)|, p, op, StorageFailed)
    {
      hide RoleRun; hide Idle; hide Stripe; hide CompleteLoaded;
      Yield(p);
      var s := View();
      role := if readable then Some(Lookup(roles, op.name)) else None;
      Took(Load(p, readable), s);
      assert !readable ==> done[|done| - 1].answer == StorageFailed;
    }

    method UnlockRole(p: Pid, op: RoleOp)
      requires Valid() && At(p, Leaving(op))
      modifies this, roleLocks
      ensures Continues() && p !in procs
    {
      hide RoleRun; hide Idle; hide Stripe; hide CompleteLoaded;
      Yield(p);
      var s := View();
      roleLocks[Stripe(op.name)] := None;
      Took(Unlock(p), s);
    }

    /** setRole, or the refusal, against the role loaded earlier. */
    method StoreRole(p: Pid, op: RoleOp, stored: Option<Role>, writable: bool) returns (answer: Answer)
      requires Valid() && op.WriteRole? && At(p, Loaded(op, stored))
      modifies this, roleLocks
      ensures Continues() && At(p, Leaving(op)) && Served(done, |old(done)|, p, op, answer)
      ensures match AcceptRole(stored, op.create, op.fields)
              case Err(e) => answer == Refused(e)
              case Ok(r) => if writable then answer == Wrote && op.name in roles && roles[op.name] == r else answer == StorageFailed
    {
      hide RoleRun; hide Idle; hide Stripe; hide AcceptRole; hide Lookup;
      Yield(p);
      var s := View();
      var merged := MergeRole(stored, op.create, op.fields);
      match merged {
        case Err(e) => answer := Refused(e);
        case Ok(r) =>
          if writable {
            roles := roles[op.name := r];
            answer := Wrote;
          } else {
            answer := StorageFailed;
          }
      }
      Took(Complete(p, writable), s);
      assert done[|done| - 1].answer == answer;
    }

    /** pathRolesWrite, for the outcomes of its two storage calls: answered as in the serial order; Wrote means
        that the role stored there takes exactly the fields given, and StorageFailed that storage did fail. */
    method Write(p: Pid, name: string, create: bool, fields: RoleFields, readable: bool, writable: bool)
        returns (answer: Answer)
      requires Valid() && p !in procs
      modifies this, roleLocks
      ensures Continues() && p !in procs && Served(done, |old(done)|, p, WriteRole(name, create, fields), answer)
      ensures ValidRoles(roles)
      ensures answer == Wrote ==> StoredGiven(start.roles, done, |old(done)|, WriteRole(name, create, fields))
      ensures answer == Wrote || answer.Refused? || answer == StorageFailed
      ensures answer == StorageFailed ==> !readable || !writable
      ensures !readable ==> answer == StorageFailed
    {
      hide RoleRun; hide Idle; hide RoleNext; hide View; hide AcceptRole; hide Stripe; hide Lookup; hide ValidRole;
      hide StoredGiven; hide Explained; hide Replay;
      var op := WriteRole(name, create, fields);
      LockRole(p, op);
      var role := LoadRole(p, op, readable);
      answer := StorageFailed;
      if role.Some? { answer := StoreRole(p, op, role.value, writable); }
      UnlockRole(p, op);
      IsInv();
      if answer == Wrote { WroteWasStored(start.roles, done, |old(done)|, p, op); }
    }

    /** pathRolesDelete. */
    method Delete(p: Pid, name: string, writable: bool) returns (answer: Answer)
      requires Valid() && p !in procs
      modifies this, roleLocks
      ensures Continues() && p !in procs && Served(done, |old(done)|, p, DeleteRole(name), answer)
      ensures answer == if writable then Deleted else StorageFailed
    {
      hide RoleRun; hide Idle; hide RoleNext; hide View; hide Stripe;
      LockRole(p, DeleteRole(name));
      answer := Remove(p, name, writable);
      UnlockRole(p, DeleteRole(name));
    }

    method Remove(p: Pid, name: string, writable: bool) returns (answer: Answer)
      requires Valid() && At(p, Holding(DeleteRole(name)))
      modifies this, roleLocks
      ensures Continues() && At(p, Leaving(DeleteRole(name))) && Served(done, |old(done)|, p, DeleteRole(name), answer)
      ensures if writable then answer == Deleted && name !in roles else answer == StorageFailed
    {
      hide RoleRun; hide Idle; hide Stripe; hide CompleteLoaded; hide Lookup;
      Yield(p);
      var s := View();
      if writable { roles := roles - {name}; }
      answer := if writable then Deleted else StorageFailed;
      Took(Complete(p, writable), s);
      assert done[|done| - 1].answer == answer;
    }

    /** pathCredentialsRead: mints while holding the lock, then finishes against the role still stored. */
    method ReadCredentials(p: Pid, name: string, readable: bool) returns (answer: Answer)
      requires Valid() && p !in procs
      modifies this, roleLocks
      ensures Continues() && p !in procs && Served(done, |old(done)|, p, ReadCreds(name), answer)
      ensures if readable then answer.Minted? || answer == NoSuchRole else answer == StorageFailed
    {
      hide RoleRun; hide Idle; hide RoleNext; hide View; hide Stripe; hide Lookup;
      var op := ReadCreds(name);
      LockRole(p, op);
      var role := LoadRole(p, op, readable);
      answer := StorageFailed;
      if role.Some? { answer := MintFor(p, name, role.value); }
      UnlockRole(p, op);
    }

    /** createCreds for the role loaded, however long it takes. */
    method MintFor(p: Pid, name: string, role: Option<Role>) returns (answer: Answer)
      requires Valid() && At(p, Loaded(ReadCreds(name), role))
      modifies this, roleLocks
      ensures Continues() && At(p, Leaving(ReadCreds(name))) && Served(done, |old(done)|, p, ReadCreds(name), answer)
      ensures role == Lookup(roles, name) && answer == match role case Some(r) => Minted(r) case None => NoSuchRole
    {
      hide RoleRun; hide Idle; hide Stripe; hide Lookup;
      Yield(p);
      IsInv();
      LoadedIsCurrent(start.roles, View(), p);
      var s := View();
      answer := match role case Some(r) => Minted(r) case None => NoSuchRole;
      Took(Complete(p, true), s);
      assert done[|done| - 1].answer == answer;
    }

    /** tokenRenew, for the outcome of its storage read: the present TTLs of the role that the lease names, and a
        refusal if it names none or the role is gone; only a failed read is answered Unreadable. */
    method RenewLease(data: Data, readable: bool) returns (ttls: Result<(int, int), RenewError>)
      ensures ROLE !in data <==> ttls == Err(RoleMissing)
      ensures ROLE in data && !data[ROLE].Str? <==> ttls == Err(RoleNotString)
      ensures ROLE in data && data[ROLE] == Str("") <==> ttls == Err(NameMissing)
      ensures forall name :: name != "" && ROLE in data && data[ROLE] == Str(name) ==>
                ttls == if !readable then Err(Unreadable)
                        else if name in roles then Ok((roles[name].ttl, roles[name].maxTtl)) else Err(RoleGone)
      ensures forall id, name, config, keepText :: name != "" && data == StoredLease(id, name, config, keepText) ==>
                ttls == if !readable then Err(Unreadable)
                        else if name in roles then Ok((roles[name].ttl, roles[name].maxTtl)) else Err(RoleGone)
    {
      forall id, name, config, keepText ensures ROLE in StoredLease(id, name, config, keepText)
        ensures StoredLease(id, name, config, keepText)[ROLE] == Str(name)
      {
        LeaseNamesRole(id, name, config, keepText);
      }
      if ROLE !in data { return Err(RoleMissing); }
      if !data[ROLE].Str? { return Err(RoleNotString); }
      var name := data[ROLE].s;
      if name == "" { return Err(NameMissing); }
      if !readable { return Err(Unreadable); }
      if name !in roles { return Err(RoleGone); }
      ttls := Ok((roles[name].ttl, roles[name].maxTtl));
    }
  }
}
