/** The engine's operations as the program they are: methods that read and assign the backend's fields one
    call at a time, while other operations run in between. Each is proved to be a run of the lifecycle. */
module Engine {
  import opened Wrappers
  import opened Decimal
  import opened Client
  import opened Snapshot
  import opened ConfigWrite
  import opened Marker
  import opened Aap
  import opened Roles
  import opened Protocol
  import opened Calls
  import opened Invariant
  import opened StepKinds
  import opened Lifecycle
  import opened Effects
  import opened Revocation
  import opened Ownership
  import opened Issuance
  import opened Progress
  import Rotations
  import Races
  import Refusals

  /** In this log, operation p was begun after its first `before` entries. */
  ghost predicate Began(start: State, log: seq<Action>, before: nat, p: Pid, op: Op) {
    exists k :: before <= k < |log| && log[k] == Act(p, Begin(op)) &&
                p in Run(start, log[..k + 1]).procs && p !in Run(start, log[..k]).procs
  }

  lemma JustBegan(start: State, past: seq<Action>, before: nat, p: Pid, op: Op)
    requires before <= |past| && p !in Run(start, past).procs && p in Run(start, past + [Act(p, Begin(op))]).procs
    ensures Began(start, past + [Act(p, Begin(op))], before, p, op)
  {
    hide Run; hide CallsOf;
    var log := past + [Act(p, Begin(op))];
    assert log[..|past|] == past && log[..|past| + 1] == log;
  }

  lemma BeganStays(start: State, past: seq<Action>, log: seq<Action>, before: nat, p: Pid, op: Op)
    requires past <= log && Began(start, past, before, p, op)
    ensures Began(start, log, before, p, op)
  {
    hide Run; hide CallsOf;
    var k :| before <= k < |past| && past[k] == Act(p, Begin(op)) && p in Run(start, past[..k + 1]).procs
        && p !in Run(start, past[..k]).procs;
    assert log[..k] == past[..k] && log[..k + 1] == past[..k + 1];
  }

  /** After the first `before` entries of this log, this was once the stored configuration. */
  ghost predicate StoredSince(start: State, log: seq<Action>, before: nat, config: Option<Config>) {
    exists k :: before <= k <= |log| && Run(start, log[..k]).config == config
  }

  lemma StoredNow(start: State, log: seq<Action>, before: nat)
    requires before <= |log|
    ensures StoredSince(start, log, before, Run(start, log).config)
  {
    hide Run; hide CallsOf;
    assert log[..|log|] == log;
  }

  lemma StoredStays(start: State, past: seq<Action>, log: seq<Action>, before: nat, earlier: nat,
      config: Option<Config>)
    requires past <= log && earlier <= before && StoredSince(start, past, before, config)
    ensures StoredSince(start, log, earlier, config)
  {
    hide Run; hide CallsOf;
    var k :| before <= k <= |past| && Run(start, past[..k]).config == config;
    assert log[..k] == past[..k];
  }

  /** No client can be built from it, or, for a rotation, it holds no bearer token. */
  predicate Unusable(env: Env, c: Option<Config>, rotating: bool) {
    c.None? || (rotating && c.value.token == "") || NewClient(env, c.value).Err?
  }

  /** After the first `before` entries of this log, the stored configuration was once like that. */
  ghost predicate UnusableSince(start: State, log: seq<Action>, before: nat, rotating: bool) {
    exists k :: before <= k <= |log| && Unusable(start.env, Run(start, log[..k]).config, rotating)
  }

  lemma UnusableNow(start: State, log: seq<Action>, before: nat, rotating: bool)
    requires before <= |log| && Unusable(start.env, Run(start, log).config, rotating)
    ensures UnusableSince(start, log, before, rotating)
  {
    hide Run; hide Unusable;
    assert log[..|log|] == log;
  }

  lemma UnusableStays(start: State, past: seq<Action>, log: seq<Action>, before: nat, earlier: nat, rotating: bool)
    requires past <= log && earlier <= before && UnusableSince(start, past, before, rotating)
    ensures UnusableSince(start, log, earlier, rotating)
  {
    hide Run; hide Unusable;
    var k :| before <= k <= |past| && Unusable(start.env, Run(start, past[..k]).config, rotating);
    assert log[..k] == past[..k];
  }

  lemma SameEnv(start: State, log: seq<Action>)
    requires Initial(start)
    ensures Run(start, log).env == start.env
  {
    hide Next; hide Inv; hide Initial;
    if log != [] {
      var n := |log| - 1;
      SameEnv(start, log[..n]);
      InitialInv(start);
      RunKeeps(start, log[..n]);
      StepGrows(Run(start, log[..n]), log[n]);
    }
  }

  /** What the past of a run bounds: minted tokens stay known, and lease numbers are not used again. */
  lemma PastIsKept(start: State, past: seq<Action>, log: seq<Action>)
    requires Initial(start) && past <= log
    ensures Run(start, past).aap.tokens.Keys <= Run(start, log).aap.tokens.Keys
    ensures Run(start, past).nextLease <= Run(start, log).nextLease
    ensures forall l :: l in Run(start, past).leases ==> l < Run(start, past).nextLease
    ensures KeepsTokens(Run(start, past).aap, Run(start, log).aap)
  {
    hide Run; hide CallsOf; hide Inv; hide Initial;
    InitialInv(start);
    RunKeeps(start, past);
    RunSplits(start, log, |past|);
    assert log[..|past|] == past;
    RunKeepsTokens(Run(start, past), log[|past|..]);
    LeaseNumbersGrow(Run(start, past), log[|past|..]);
    Agrees(Run(start, past), 0);
    forall id | id in Run(start, past).aap.tokens
      ensures id in Run(start, log).aap.tokens
    {
    }
  }

  datatype MintOutcome = Minted(id: int, secret: string) | Rejected | NoAnswer

  /** The record held this token at some point. */
  ghost predicate RecordHeld(start: State, log: seq<Action>, src: Source, id: int) {
    exists k :: 0 <= k <= |log| && Recorded(Run(start, log[..k]), src) && GrantOf(Run(start, log[..k]), src).id == id
  }

  /** And this was the configuration recorded with it. */
  ghost predicate RecordHeldWith(start: State, log: seq<Action>, src: Source, id: int, c: Config) {
    exists k :: 0 <= k <= |log| && Recorded(Run(start, log[..k]), src) && GrantOf(Run(start, log[..k]), src).id == id
                && GrantOf(Run(start, log[..k]), src).config == c
  }

  lemma RecordHoldsWith(start: State, past: seq<Action>, log: seq<Action>, src: Source)
    requires past <= log && Recorded(Run(start, past), src)
    ensures RecordHeldWith(start, log, src, GrantOf(Run(start, past), src).id, GrantOf(Run(start, past), src).config)
  {
    hide Run;
    assert log[..|past|] == past;
  }

  lemma RecordHolds(start: State, log: seq<Action>, src: Source)
    requires Recorded(Run(start, log), src)
    ensures RecordHeld(start, log, src, GrantOf(Run(start, log), src).id)
  {
    hide Run; hide CallsOf;
    assert log[..|log|] == log;
  }

  lemma RecordHeldStays(start: State, past: seq<Action>, log: seq<Action>, src: Source, id: int)
    requires past <= log && RecordHeld(start, past, src, id)
    ensures RecordHeld(start, log, src, id)
  {
    hide Run; hide CallsOf;
    var k :| 0 <= k <= |past| && Recorded(Run(start, past[..k]), src) && GrantOf(Run(start, past[..k]), src).id == id;
    assert log[..k] == past[..k];
  }

  /** With this step a revocation gives up on its token: at its fallback DELETE with this client, or, with none, at
      building one. */
  predicate GivesUp(u: State, a: Action, id: int, held: Option<Cached>) {
    && a.Act? && a.p in u.procs && u.procs[a.p].Revoke? && u.procs[a.p].r.id == id && a.p !in Next(u, a).procs
    && match held
       case Some(k) => u.procs[a.p].r.ByCurrent? && u.procs[a.p].r.current == k
       case None => u.procs[a.p].r.LoadClient?
  }

  ghost predicate GaveUpSince(start: State, log: seq<Action>, before: nat, p: Pid, id: int, held: Option<Cached>) {
    exists k :: before <= k < |log| && log[k].Act? && log[k].p == p && GivesUp(Run(start, log[..k]), log[k], id, held)
  }

  lemma GaveUpNow(start: State, past: seq<Action>, a: Action, before: nat, id: int, held: Option<Cached>)
    requires before <= |past| && a.Act? && GivesUp(Run(start, past), a, id, held)
    ensures GaveUpSince(start, past + [a], before, a.p, id, held)
  {
    hide Run; hide GivesUp;
    var log := past + [a];
    assert log[..|past|] == past && log[|past|] == a;
    assert GivesUp(Run(start, log[..|past|]), log[|past|], id, held);
  }

  lemma GaveUpEarlier(start: State, log: seq<Action>, before: nat, earlier: nat, p: Pid, id: int, held: Option<Cached>)
    requires earlier <= before && GaveUpSince(start, log, before, p, id, held)
    ensures GaveUpSince(start, log, earlier, p, id, held)
  {
    hide Run; hide GivesUp;
  }

  /** Since then the engine has run as the privileged identity i, left alone by operators, and everything that p
      asked was answered. */
  ghost predicate Steady(start: State, log: seq<Action>, before: nat, p: Pid, i: int)
    requires before <= |log|
  {
    && Rotations.RunsAs(Run(start, log[..before]), i) && i in Run(start, log[..before]).aap.privileged
    && forall k :: before <= k < |log| ==> Undisturbed(log[k]) && AnsweredTo(log[k], p)
  }

  predicate AnsweredTo(a: Action, p: Pid) { a.Act? && a.p == p ==> a.e.Begin? || Races.Answers(a.e) }

  /** A rotation or another change of the configuration overtook p's answered fallback DELETE of this token. */
  ghost predicate OvertakenSince(start: State, log: seq<Action>, before: nat, p: Pid, id: int) {
    exists k :: before <= k < |log| && log[k] == Act(p, DeleteReplied(Deleted)) && StaleNow(Run(start, log[..k]), p, id)
  }

  predicate StaleNow(u: State, p: Pid, id: int) {
    && p in u.procs && u.procs[p].Revoke? && u.procs[p].r.ByCurrent? && u.procs[p].r.id == id
    && u.procs[p].r.current.version < u.version
  }

  lemma FallbackEndsByDelete(u: State, p: Pid, e: Event)
    requires p in u.procs && u.procs[p].Revoke? && u.procs[p].r.ByCurrent? && Races.Answers(e)
        && p !in Next(u, Act(p, e)).procs
    ensures e == DeleteReplied(Deleted)
  {
    hide DeleteConfirmed; hide Aap.Delete; hide CredsStep; hide ByCreds; hide RotateStep; hide ByRotate; hide WriteStep;
    hide ByWrite; hide Start;
  }

  /** While the engine runs steadily, a revocation gives up only if it has been overtaken. */
  lemma GivingUpIsOvertaken(start: State, log: seq<Action>, before: nat, p: Pid, id: int, held: Option<Cached>, i: int)
    requires Initial(start) && before <= |log| && Steady(start, log, before, p, i)
    requires GaveUpSince(start, log, before, p, id, held)
    ensures OvertakenSince(start, log, before, p, id)
  {
    hide Run; hide Next; hide Initial; hide Rotations.RunsAs; hide Undisturbed; hide Races.Answers;
    var k :| before <= k < |log| && log[k].Act? && log[k].p == p && GivesUp(Run(start, log[..k]), log[k], id, held);
    var s, actions := Run(start, log[..before]), log[before..k];
    RunSplits(start, log[..k], before);
    assert log[..k][..before] == log[..before] && log[..k][before..] == actions;
    assert AnsweredTo(log[k], p);
    if log[k].e.Begin? { BeginIsIgnored(Run(start, log[..k]), log[k]); }
    Races.AnsweredRevocationSucceeds(s, actions, i, p, log[k].e);
    FallbackEndsByDelete(Run(start, log[..k]), p, log[k].e);
  }

  lemma BeginIsIgnored(u: State, a: Action)
    requires a.Act? && a.p in u.procs && u.procs[a.p].Revoke? && !u.procs[a.p].r.BySnapshot? && a.e.Begin?
    ensures a.p in Next(u, a).procs
  {
    hide DeleteConfirmed; hide Aap.Delete; hide CredsStep; hide ByCreds; hide RotateStep; hide ByRotate; hide WriteStep;
    hide ByWrite; hide NewClient;
  }

  /** The root token that minted for this configuration is known, and dead. */
  predicate DeadRoot(a: Server, c: Config) { c.tokenId > 0 && c.tokenId !in a.live }

  /** Since then the engine has acted as the privileged identity i, for every request then in flight too, left alone by
      operators, and everything that p asked was answered. */
  ghost predicate SteadyMint(start: State, log: seq<Action>, before: nat, p: Pid, i: int)
    requires before <= |log|
  {
    && Refusals.ActsFrom(Run(start, log[..before]), log[before..], i)
    && forall k :: before <= k < |log| ==> AnsweredTo(log[k], p)
  }

  /** A request at its cleanup DELETE. */
  predicate CleansUp(pc: Proc, q: Request, id: int) {
    match pc
    case Creds(DropUnlogged(r, i)) => r == q && i == id
    case Creds(Undo(r, i, _)) => r == q && i == id
    case Creds(UndoCommit(r, i, _)) => r == q && i == id
    case _ => false
  }

  /** An answered cleanup DELETE of a steady engine is refused only to a dead root token. */
  lemma MintCleanupFails(start: State, past: seq<Action>, before: nat, p: Pid, i: int, q: Request, id: int,
      reply: DeleteReply)
    requires Initial(start) && before <= |past|
        && SteadyMint(start, past + [Act(p, DeleteReplied(reply))], before, p, i)
    requires var u := Run(start, past); p in u.procs && CleansUp(u.procs[p], q, id)
    ensures var u := Run(start, past);
            NewClient(u.env, q.config).Ok? &&
            (DeleteConfirmed(u.aap, NewClient(u.env, q.config).value.auth, id, reply) || DeadRoot(u.aap, q.config))
  {
    hide Run; hide Initial; hide Refusals.ActsFrom; hide MayDelete; hide NewClient;
    var log := past + [Act(p, DeleteReplied(reply))];
    assert AnsweredTo(log[|past|], p);
    var s, actions := Run(start, log[..before]), past[before..];
    RunSplits(start, past, before);
    assert log[..before] == past[..before] && log[before..][..|actions|] == actions;
    assert Refusals.ActsFrom(s, actions, i) by { ActsForLess(s, log[before..], |actions|, i); }
    if Run(start, past).procs[p].c.DropUnlogged? { UnloggedMayDelete(s, actions, i, p, q, id); }
    else { Refusals.CleanupMayDelete(s, actions, i, p); }
  }

  lemma ActsForLess(s: State, actions: seq<Action>, n: nat, i: int)
    requires n <= |actions| && Refusals.ActsFrom(s, actions, i)
    ensures Refusals.ActsFrom(s, actions[..n], i)
  {
    hide Reachable; hide Rotations.RunsAs; hide Races.RequestsAct; hide Undisturbed;
  }

  lemma UnloggedMayDelete(s: State, actions: seq<Action>, i: int, p: Pid, q: Request, id: int)
    requires Refusals.ActsFrom(s, actions, i)
    requires var u := Run(s, actions); p in u.procs && u.procs[p] == Creds(DropUnlogged(q, id))
    ensures var u := Run(s, actions);
            NewClient(u.env, q.config).Ok?
            && (MayDelete(u.aap, NewClient(u.env, q.config).value.auth, id) || DeadRoot(u.aap, q.config))
  {
    hide Reachable; hide Inv; hide Run; hide Rotations.RunsAs; hide MayDelete; hide NewClient; hide Races.RequestsAct;
    ReachableInv(s);
    Rotations.RunRunsAs(s, actions, i);
    Races.RunKeepsRequests(s, actions, i);
    Rotations.RunKeepsPrivileges(s, actions);
    var u := Run(s, actions);
    Races.HeldActs(u, p, i);
    assert Races.HeldConfig(u.procs[p]) == Some(q.config);
    Races.DeadConfigIff(u, q.config, i);
    Races.MayDeleteIff(u.aap, AdminAuth(u.env, q.config), i, id);
  }

  // ----- Where some steps lead, and what they leave alone

  lemma MergeEnds(s: State, p: Pid, create: bool, fields: Fields)
    requires p in s.procs && s.procs[p] == Write(Merge(create, fields))
    ensures Next(s, Act(p, Fails)) == s.(procs := s.procs - {p}, configLock := None)
    ensures Next(s, Act(p, Succeeds)) ==
            match Accept(s.env, s.config, create, fields)
            case Err(_) => s.(procs := s.procs - {p}, configLock := None)
            case Ok(c) => s.(procs := s.procs[p := Write(Probe(c))])
  {
    hide Accept; hide CredsStep; hide RevokeStep; hide RotateStep; hide Start;
  }

  lemma CleanupEnds(s: State, p: Pid, c: Config, id: int, reply: DeleteReply)
    requires p in s.procs && s.procs[p] == Rotate(CleanupRoot(c, id)) && NewClient(s.env, c).Ok?
    ensures var t := Next(s, Act(p, DeleteReplied(reply)));
            && t == s.(aap := Aap.Delete(s.aap, AdminAuth(s.env, c), id, reply), procs := s.procs - {p}, configLock := None,
                       ledger := t.ledger)
            && id in t.ledger && (id in t.aap.live ==> t.ledger[id] == Orphan(RootCleanupFailed))
  {
    hide NewClient; hide MayDelete; hide CredsStep; hide RevokeStep; hide WriteStep; hide Start;
  }

  /** The request has ended, and a token of its that is still live is an orphan for this cause. */
  ghost predicate SweptFor(s: State, t: State, p: Pid, token: Option<int>, cause: Cause) {
    && t == s.(procs := s.procs - {p}, ledger := t.ledger)
    && (token.Some? && token.value in t.aap.live ==> token.value in t.ledger && t.ledger[token.value] == Orphan(cause))
  }

  lemma ListEnds(s: State, p: Pid, auth: Auth, description: string, marker: string, token: Option<int>, rows: seq<Row>)
    requires p in s.procs && s.procs[p] == Creds(SweepList(auth, description, marker, token))
    ensures SweptFor(s, Next(s, Act(p, Fails)), p, token, SweepFailed)
    ensures Works(s.aap, auth) && Truthful(s.aap, rows) ==>
              var t, found := Next(s, Act(p, Listing(rows))), IdsWithDescription(rows, description);
              if found == [] then SweptFor(s, t, p, token, SweepMissed)
              else t == s.(procs := s.procs[p := Creds(SweepDelete(auth, found, token))])
  {
    hide Works; hide Truthful; hide IdsWithDescription; hide RevokeStep; hide RotateStep; hide WriteStep; hide Start;
  }

  lemma RecordOldEnds(s: State, p: Pid, oldId: int, next: Config)
    requires p in s.procs && s.procs[p] == Rotate(RecordOld(oldId, next))
    ensures var t := Next(s, Act(p, Fails)); t == s.(procs := s.procs - {p}, configLock := None, ledger := t.ledger)
    ensures var t := Next(s, Act(p, Succeeds));
            t == s.(procs := s.procs - {p}, configLock := None, ledger := t.ledger, nextWal := s.nextWal + 1,
                    wal := s.wal[s.nextWal := Grant(oldId, "config/rotate-root", next)])
  {
    hide CredsStep; hide RevokeStep; hide WriteStep; hide Start;
  }

  lemma UndoEnds(s: State, p: Pid, q: Request, id: int, w: nat, reply: DeleteReply)
    requires p in s.procs && s.procs[p] == Creds(Undo(q, id, w)) && NewClient(s.env, q.config).Ok?
    ensures var auth := AdminAuth(s.env, q.config);
            Next(s, Act(p, DeleteReplied(reply))) ==
            s.(aap := Aap.Delete(s.aap, auth, id, reply),
               procs := if DeleteConfirmed(s.aap, auth, id, reply) then s.procs[p := Creds(UndoWal(q, id, w))] else s.procs - {p})
  {
    hide NewClient; hide MayDelete; hide RevokeStep; hide RotateStep; hide WriteStep; hide Start;
  }

  lemma MintStops(s: State, p: Pid)
    requires p in s.procs && s.procs[p].Creds? && s.procs[p].c.Mint?
    ensures Next(s, Act(p, Fails)) == s.(procs := s.procs - {p})
  {
    hide RevokeStep; hide RotateStep; hide WriteStep; hide Start;
  }

  lemma MintEnds(s: State, p: Pid, q: Request, reply: PostReply, requestId: string)
    requires p in s.procs && s.procs[p] == Creds(Protocol.Mint(q)) && NewClient(s.env, q.config).Ok?
    requires IsRequestId(requestId) && requestId !in s.markers
    ensures var t := Next(s, Act(p, PostReplied(reply, requestId)));
            var auth, id := MintAuth(s.env, q), s.aap.nextId;
            var description := MintDescription(q.config.tokenDescriptionPrefix, q.role.description, requestId);
            var created := Creates(s.aap, auth, reply);
            t == s.(aap := Aap.Post(s.aap, auth, description, Some(requestId), reply), markers := t.markers, ledger := t.ledger,
                    procs := if Answered(reply) then
                               if created then s.procs[p := Creds(PutWal(q, id))] else s.procs - {p}
                             else s.procs[p := Creds(SweepList(auth, description, requestId, if created then Some(id) else None))])
  {
    hide NewClient; hide IdentityOf; hide MintAuth; hide MintDescription; hide Aap.Post; hide RevokeStep;
    hide RotateStep; hide WriteStep; hide Start;
  }

  /** Failed and Kept leave the record for a retry. */
  datatype RevokeResult = NotRecorded | Failed(id: int) | Kept(id: int) | Dropped(id: int)

  datatype WriteFailure = Unavailable | Invalid(e: WriteError) | ProbeFailed

  /** What a rotation reports about the previous token. */
  datatype OldToken = Unknown | Gone(id: int) | RetryRecorded(id: int, w: nat) | Unrecorded(id: int)
  datatype RotateResult = GaveUp | KeptOld(newId: int, cleaned: bool) | Rotated(next: Config, previous: OldToken)

  class Backend {
    const env: Env
    // In the plugin's memory.
    var client: Option<Cached>
    var lock: Option<Pid>
    var configLock: Option<Pid>
    // In Vault: the engine's storage and the leases.
    var config: Option<Config>
    var wal: map<nat, Grant>
    var nextWal: nat
    var leases: map<nat, Lease>
    var nextLease: nat
    // AAP.
    var aap: Server
    // Bookkeeping: the operations in flight, the ledger, and everything that has happened.
    var version: nat
    var settled: nat
    var procs: map<Pid, Proc>
    var markers: set<string>
    var ledger: map<int, Owner>
    ghost var start: State
    ghost var log: seq<Action>
    ghost var calls: seq<Call>

    function View(): State
      reads this
    {
      State(env, aap, config, version, settled, client, lock, configLock, wal, nextWal, leases, nextLease, procs,
          markers, ledger)
    }

    /** The fields are what the lifecycle makes of everything that has happened since the mount, and every answer
        in that log is one that a call was given. */
    ghost predicate Valid()
      reads this
    {
      Initial(start) && View() == Run(start, log) && calls == CallsOf(start, log)
    }

    ghost predicate At(p: Pid, pc: Proc)
      reads this`procs
    {
      p in procs && procs[p] == pc
    }

    /** The fields the operations assign are those of t. */
    ghost predicate Holds(t: State)
      reads this
    {
      && env == t.env && aap == t.aap && config == t.config && client == t.client
      && lock == t.lock && configLock == t.configLock
      && wal == t.wal && nextWal == t.nextWal && leases == t.leases && nextLease == t.nextLease
    }

    /** Since the earlier state, only steps have been taken. */
    twostate predicate Continues()
      reads this
    {
      Valid() && start == old(start) && old(log) <= log && old(calls) <= calls
    }

    constructor (env: Env, aap: Server)
      requires aap.nextId > 0 && aap.tokens == map[] && aap.live == {} && aap.secrets == map[]
      ensures Valid() && log == [] && procs == map[] && View() == start
    {
      this.env := env;
      this.aap := aap;
      client, lock, configLock, config := None, None, None, None;
      wal, nextWal, leases, nextLease := map[], 0, map[], 0;
      version, settled, procs, markers, ledger := 0, 0, map[], {}, map[];
      start := State(env, aap, None, 0, 0, None, None, None, map[], 0, map[], 0, map[], {}, map[]);
      log, calls := [], [];
    }

    lemma IsInv()
      requires Valid()
      ensures Inv(View())
    {
      hide Inv; hide Run; hide CallsOf;
      InitialInv(start);
      RunKeeps(start, log);
    }

    // ----- The rest of the system

    /** A step whose assignments to the fields are done is entered in the books. */
    method Took(a: Action, s: State)
      requires Initial(start) && s == Run(start, log) && Holds(Next(s, a))
      requires calls == CallsOf(start, log) + Called(s, a)
      modifies `procs, `ledger, `settled, `version, `markers, `log
      ensures View() == Next(s, a) && Valid()
      ensures log == old(log) + [a]
    {
      hide Next; hide Run; hide CallsOf; hide Called;
      RunOn(start, log, a);
      OneMoreCall(start, log, a);
      var t := Next(s, a);
      procs, ledger, settled, version, markers := t.procs, t.ledger, t.settled, t.version, t.markers;
      log := log + [a];
    }

    method Adopt(t: State)
      requires t.env == env
      modifies `client, `lock, `configLock, `config, `wal, `nextWal, `leases, `nextLease, `aap
      ensures Holds(t)
    {
      client, lock, configLock, config := t.client, t.lock, t.configLock, t.config;
      wal, nextWal, leases, nextLease, aap := t.wal, t.nextWal, t.leases, t.nextLease, t.aap;
    }

    predicate OfOthers(a: Action, p: Pid) { !a.Crash? && (a.Act? ==> a.p != p) }

    /** The rest of the system goes on for a while. */
    method Yield(p: Pid)
      requires Valid()
      modifies this
      ensures Valid() && old(log) <= log && old(calls) <= calls && start == old(start)
      ensures (p in procs <==> p in old(procs)) && (p in procs ==> procs[p] == old(procs)[p])
      ensures p in procs && IsRootOp(procs[p]) ==> config == old(config)
    {
      hide Next; hide Valid; hide View;
      var others: seq<Action> := *;
      for i := 0 to |others|
        invariant Valid() && old(log) <= log && old(calls) <= calls && start == old(start)
        invariant (p in procs <==> p in old(procs)) && (p in procs ==> procs[p] == old(procs)[p])
        invariant p in procs && IsRootOp(procs[p]) ==> config == old(config)
      {
        if OfOthers(others[i], p) { Happens(others[i], p); }
      }
    }

    /** Something else happens: a step of another operation, an invalidation, an operator's doing. */
    method Happens(a: Action, p: Pid)
      requires Valid() && OfOthers(a, p)
      modifies this
      ensures View() == Next(old(View()), a) && Valid()
      ensures log == old(log) + [a] && start == old(start) && old(calls) <= calls
      ensures (p in procs <==> p in old(procs)) && (p in procs ==> procs[p] == old(procs)[p])
      ensures p in procs && IsRootOp(procs[p]) ==> config == old(config)
    {
      hide Next; hide Run; hide CallsOf; hide Inv; hide Grows; hide Holds; hide Called;
      IsInv();
      var s := View();
      StepGrows(s, a);
      OthersLeave(s, p, a);
      calls := calls + Called(s, a);
      Adopt(Next(s, a));
      Took(a, s);
    }

    static lemma OthersLeave(s: State, p: Pid, a: Action)
      requires Inv(s) && !a.Crash? && (a.Act? ==> a.p != p)
      ensures var t := Next(s, a);
              && (p in t.procs <==> p in s.procs) && (p in t.procs ==> t.procs[p] == s.procs[p])
              && (p in s.procs && IsRootOp(s.procs[p]) ==> t.config == s.config)
    {
      hide Inv; hide Start; hide CredsStep; hide RevokeStep; hide RotateStep; hide WriteStep;
      if a.Act? { StepMovesOne(s, a.p, a.e); }
      if p in s.procs && IsRootOp(s.procs[p]) { OthersKeepConfig(s, p, a); }
    }

    static lemma OthersKeepConfig(s: State, p: Pid, a: Action)
      requires Inv(s) && p in s.procs && IsRootOp(s.procs[p]) && !a.Crash? && (a.Act? ==> a.p != p)
      ensures Next(s, a).config == s.config
    {
      hide Inv; hide Next; hide Grows;
      StepGrows(s, a);
      RootOpHoldsLock(s, p);
      if a.Act? && a.p in s.procs && IsRootOp(s.procs[a.p]) { RootOpHoldsLock(s, a.p); }
    }

    /** Blocks until the client lock is free. */
    method AwaitClientLock(p: Pid)
      requires Valid() && (p in procs ==> !HoldsClientLock(procs[p]))
      modifies this
      ensures Valid() && old(log) <= log && old(calls) <= calls && start == old(start) && lock == None
      ensures (p in procs <==> p in old(procs)) && (p in procs ==> procs[p] == old(procs)[p])
      ensures p in procs && IsRootOp(procs[p]) ==> config == old(config)
    {
      hide Inv; hide Next; hide Run; hide CallsOf; hide AbortEvent;
      Yield(p);
      if lock.Some? {
        IsInv();
        ClientLockIsReleased(View());
        Happens(Act(lock.value, AbortEvent(procs[lock.value])), p);
      }
    }

    /** Blocks until configLock is free, for an operation that is about to begin. */
    method AwaitConfigLock(p: Pid)
      requires Valid() && p !in procs
      modifies this
      ensures Valid() && old(log) <= log && old(calls) <= calls && start == old(start) && configLock == None
          && p !in procs
    {
      hide Inv; hide Next; hide Run; hide CallsOf; hide AbortEvent; hide Rank;
      Yield(p);
      while configLock.Some?
        invariant Valid() && old(log) <= log && old(calls) <= calls && start == old(start) && p !in procs
        decreases if configLock.Some? && configLock.value in procs then Rank(procs[configLock.value]) + 1 else 0, lock.Some?
      {
        IsInv();
        ConfigLockIsReleased(View());
        var holder := if lock.Some? then lock.value else configLock.value;
        Happens(Act(holder, AbortEvent(procs[holder])), p);
      }
    }

    // ----- Calls to AAP and to storage: each goes into the record with what it returned

    method Delete(p: Pid, auth: Auth, id: int) returns (confirmed: bool, reply: DeleteReply)
      modifies `aap, `calls
      ensures aap == Aap.Delete(old(aap), auth, id, reply)
      ensures confirmed == DeleteConfirmed(old(aap), auth, id, reply)
      ensures calls == old(calls) + [Call(p, DeleteToken(auth, id), confirmed)]
    {
      reply := *;
      confirmed := DeleteConfirmed(aap, auth, id, reply);
      aap := Aap.Delete(aap, auth, id, reply);
      calls := calls + [Call(p, DeleteToken(auth, id), confirmed)];
    }

    method Post(p: Pid, auth: Auth, scope: string, description: string, application: int, marker: Option<string>)
        returns (minted: MintOutcome, reply: PostReply)
      modifies `aap, `calls
      ensures aap == Aap.Post(old(aap), auth, description, marker, reply)
      ensures minted == if !Answered(reply) then NoAnswer
                        else if Creates(old(aap), auth, reply) then Minted(old(aap).nextId, reply.secret) else Rejected
      ensures calls == old(calls) + [Call(p, PostToken(auth, scope, description, application), minted.Minted?)]
    {
      reply := *;
      if !Answered(reply) {
        minted := NoAnswer;
      } else {
        minted := if Creates(aap, auth, reply) then Minted(aap.nextId, reply.secret) else Rejected;
      }
      aap := Aap.Post(aap, auth, description, marker, reply);
      calls := calls + [Call(p, PostToken(auth, scope, description, application), minted.Minted?)];
    }

    /** VerifyToken. */
    method TryCredential(p: Pid, auth: Auth) returns (ok: bool, answered: bool)
      modifies `calls
      ensures ok == (answered && Works(aap, auth)) && calls == old(calls) + [Call(p, Verify(auth), ok)]
    {
      answered := *;
      ok := answered && Works(aap, auth);
      calls := calls + [Call(p, Verify(auth), ok)];
    }

    /** tokenDetail: the live token, if AAP answers a credential that works. */
    method ReadToken(p: Pid, auth: Auth, id: int) returns (token: Option<Token>, answered: bool)
      modifies `calls
      ensures token.Some? == (answered && Works(aap, auth) && id in aap.live && id in aap.tokens)
      ensures token.Some? ==> token.value == aap.tokens[id]
      ensures calls == old(calls) + [Call(p, GetToken(auth, id), token.Some?)]
    {
      answered := *;
      token := None;
      if answered && Works(aap, auth) && id in aap.live && id in aap.tokens { token := Some(aap.tokens[id]); }
      calls := calls + [Call(p, GetToken(auth, id), token.Some?)];
    }

    /** ResolveUserID and ResolveApplicationID: the listing, if one arrives, and the id it resolves the name to. */
    method Find(p: Pid, auth: Auth, users: bool, name: string) returns (id: Option<int>, listing: Option<seq<Named>>)
      modifies `calls
      ensures id == (if listing.Some? && ResolveId(listing.value, name).Ok?
          then Some(ResolveId(listing.value, name).value) else None)
      ensures calls == old(calls) + [Call(p, if users then GetUsers(auth, name) else GetApplications(auth, name), id.Some?)]
    {
      listing, id := *, None;
      if !listing.None? {
        var found := ResolveName(listing.value, name);
        id := match found case Ok(v) => Some(v) case Err(_) => None;
      }
      calls := calls + [Call(p, if users then GetUsers(auth, name) else GetApplications(auth, name), id.Some?)];
    }

    /** The rows of the tokens listing, if AAP answers a credential that works. */
    method ListTokens(p: Pid, auth: Auth) returns (rows: Option<seq<Row>>)
      modifies `calls
      ensures rows.Some? ==> Works(aap, auth) && Truthful(aap, rows.value)
      ensures calls == old(calls) + [Call(p, GetTokens(auth), rows.Some?)]
    {
      rows := *;
      if !rows.Some? || !Works(aap, auth) || !Truthful(aap, rows.value) { rows := None; }
      calls := calls + [Call(p, GetTokens(auth), rows.Some?)];
    }

    method LoadStored(p: Pid) returns (readable: bool)
      modifies `calls
      ensures calls == old(calls) + [Call(p, GetConfig, readable)]
    {
      readable := *;
      calls := calls + [Call(p, GetConfig, readable)];
    }

    method PutStored(p: Pid, c: Config) returns (ok: bool)
      modifies `config, `calls
      ensures config == (if ok then Some(c) else old(config)) && calls == old(calls) + [Call(p, SetConfig(c), ok)]
    {
      ok := *;
      if ok { config := Some(c); }
      calls := calls + [Call(p, SetConfig(c), ok)];
    }

    method DeleteStored(p: Pid) returns (ok: bool)
      modifies `config, `calls
      ensures config == (if ok then None else old(config)) && calls == old(calls) + [Call(p, DropConfig, ok)]
    {
      ok := *;
      if ok { config := None; }
      calls := calls + [Call(p, DropConfig, ok)];
    }

    /** PutWAL. */
    method AppendEntry(p: Pid, g: Grant) returns (w: Option<nat>)
      modifies `wal, `nextWal, `calls
      ensures match w
              case Some(v) => v == old(nextWal) && wal == old(wal)[v := g] && nextWal == v + 1
              case None => wal == old(wal) && nextWal == old(nextWal)
      ensures calls == old(calls) + [Call(p, AppendWal(g), w.Some?)]
    {
      var ok: bool := *;
      w := None;
      if ok {
        w := Some(nextWal);
        wal := wal[nextWal := g];
        nextWal := nextWal + 1;
      }
      calls := calls + [Call(p, AppendWal(g), ok)];
    }

    /** DeleteWAL. */
    method EraseEntry(p: Pid, w: nat) returns (ok: bool)
      modifies `wal, `calls
      ensures wal == (if ok then old(wal) - {w} else old(wal)) && calls == old(calls) + [Call(p, EraseWal(w), ok)]
    {
      ok := *;
      if ok { wal := wal - {w}; }
      calls := calls + [Call(p, EraseWal(w), ok)];
    }

    /** ctx.Err() is nil. */
    method CallerWaits(p: Pid) returns (waiting: bool)
      modifies `calls
      ensures calls == old(calls) + [Call(p, PollCaller, waiting)]
    {
      waiting := *;
      calls := calls + [Call(p, PollCaller, waiting)];
    }

    /** Vault removes the lease, or its WAL manager the entry. */
    method Discard(p: Pid, src: Source) returns (ok: bool)
      modifies `wal, `leases, `calls
      ensures wal == (if ok && src.FromWal? then old(wal) - {src.w} else old(wal))
      ensures leases == (if ok && src.FromLease? then old(leases) - {src.l} else old(leases))
      ensures calls == old(calls) + [Call(p, DiscardRecord(src), ok)]
    {
      ok := *;
      if ok {
        match src {
          case FromLease(l) => leases := leases - {l};
          case FromWal(w) => wal := wal - {w};
        }
      }
      calls := calls + [Call(p, DiscardRecord(src), ok)];
    }

    // ----- config/rotate-root

    method BeginRotation(p: Pid)
      requires Valid() && p !in procs
      modifies this
      ensures Continues() && Began(start, log, |old(log)|, p, Rotating) && At(p, Rotate(LoadRoot))
    {
      hide Run; hide CallsOf;
      AwaitConfigLock(p);
      var s := View();
      ghost var past := log;
      configLock := Some(p);
      Took(Act(p, Begin(Rotating)), s);
      JustBegan(start, past, |old(log)|, p, Rotating);
    }

    method LoadRootConfig(p: Pid) returns (c: Option<Config>)
      requires Valid() && At(p, Rotate(LoadRoot))
      modifies this
      ensures Continues()
      ensures match c case Some(v) => At(p, Rotate(MintRoot(v))) case None => p !in procs
      ensures c.Some? ==> StoredSince(start, log, |old(log)|, c)
      ensures c.None? ==> Sent(calls, |old(calls)|, Call(p, GetConfig, false)) || UnusableSince(start, log, |old(log)|, true)
    {
      hide Run; hide CallsOf; hide MintRootStep; hide VerifyRootStep; hide PutRootStep; hide CleanupRootStep;
      hide ResetRootStep; hide RevokeOldStep; hide RecordOldStep; hide Called; hide StoredSince; hide CredsStep;
      hide RevokeStep; hide WriteStep; hide Start; hide NewClient; hide UnusableSince; hide Initial;
      Yield(p);
      SameEnv(start, log);
      var s := View();
      ghost var past, sent := log, calls;
      var readable := LoadStored(p);
      SentLast(sent, |old(calls)|, Call(p, GetConfig, readable));
      StorageCalled(s, p, GetConfig, readable);
      if !readable {
        configLock := None;
        Took(Act(p, Fails), s);
        return None;
      }
      if config.None? || config.value.token == "" || NewClient(env, config.value).Err? {
        UnusableNow(start, past, |old(log)|, true);
        configLock := None;
        Took(Act(p, Succeeds), s);
        UnusableStays(start, past, log, |old(log)|, |old(log)|, true);
        return None;
      }
      c := config;
      StoredNow(start, log, |old(log)|);
      Took(Act(p, Succeeds), s);
      StoredStays(start, past, log, |old(log)|, |old(log)|, c);
    }

    method MintRootToken(p: Pid, c: Config) returns (next: Option<Config>)
      requires Valid() && At(p, Rotate(MintRoot(c)))
      modifies this
      ensures Continues()
      ensures match next case Some(n) => At(p, Rotate(VerifyRoot(c, n))) && n.tokenId > 0 case None => p !in procs
      ensures next.Some? ==> NewToken(c, next.value, old(aap.tokens).Keys)
      ensures next.None? ==> CallFailed(calls, |old(calls)|, p)
    {
      hide Run; hide CallsOf; hide Called; hide Sent; hide CallFailed; hide Next; hide NewClient; hide Inv;
      hide Creates; hide Aap.Post;
      Yield(p);
      MintsNew(p, old(log));
      var s := View();
      ghost var sent := calls;
      var minted, reply := Post(p, AdminAuth(env, c), "write", ROOT_DESCRIPTION, 0, None);
      SentLast(sent, |old(calls)|, Call(p, PostToken(AdminAuth(env, c), "write", ROOT_DESCRIPTION, 0), minted.Minted?));
      match minted {
        case Minted(id, secret) => next := Some(c.(token := secret, tokenId := id));
        case _ => next := None; configLock := None;
      }
      MintRootCalled(s, p, c, reply);
      MintRootEnds(s, p, c, reply);
      Took(Act(p, PostReplied(reply, "")), s);
    }

    /** Where the mint of a root token leads, and what it leaves alone. */
    lemma MintRootEnds(s: State, p: Pid, c: Config, reply: PostReply)
      requires p in s.procs && s.procs[p] == Rotate(MintRoot(c)) && NewClient(s.env, c).Ok?
      ensures var t := Next(s, Act(p, PostReplied(reply, "")));
              var auth, id := AdminAuth(s.env, c), s.aap.nextId;
              var minted := Answered(reply) && Creates(s.aap, auth, reply);
              && t == s.(aap := Aap.Post(s.aap, auth, ROOT_DESCRIPTION, None, reply), procs := t.procs,
                  ledger := t.ledger,
                         configLock := if minted then s.configLock else None)
              && (if minted then p in t.procs
                  && t.procs[p] == Rotate(VerifyRoot(c, c.(token := reply.secret, tokenId := id)))
                  else p !in t.procs)
    {
      hide NewClient; hide IdentityOf; hide Aap.Post; hide CredsStep; hide RevokeStep; hide WriteStep; hide Start;
    }

    /** The next id is positive and was not known before, and the operation has a client. */
    lemma MintsNew(p: Pid, past: seq<Action>)
      requires Valid() && past <= log && p in procs && procs[p].Rotate? && procs[p].t.MintRoot?
      ensures aap.nextId > 0 && aap.nextId !in Run(start, past).aap.tokens && NewClient(env, procs[p].t.config).Ok?
    {
      hide Run; hide CallsOf; hide Inv; hide NewClient; hide KeepsTokens;
      IsInv();
      ClientsBuild(View(), p);
      IdsArePositive(View());
      PastIsKept(start, past, log);
    }

    lemma IdsArePositive(s: State)
      requires Inv(s)
      ensures s.aap.nextId > 0 && s.aap.nextId !in s.aap.tokens
    {
    }

    /** The configuration with its token replaced by one that was not among these. */
    static predicate NewToken(c: Config, next: Config, known: set<int>) {
      next == c.(token := next.token, tokenId := next.tokenId) && next.tokenId !in known
    }

    method VerifyRootToken(p: Pid, c: Config, next: Config) returns (ok: bool)
      requires Valid() && At(p, Rotate(VerifyRoot(c, next)))
      modifies this
      ensures Continues()
      ensures if ok then At(p, Rotate(PutRoot(c, next))) else At(p, Rotate(CleanupRoot(c, next.tokenId)))
      ensures NewClient(env, next).Ok? && (ok ==> Works(aap, NewClient(env, next).value.auth))
      ensures Sent(calls, |old(calls)|, Call(p, Verify(NewClient(env, next).value.auth), ok))
    {
      hide Run; hide CallsOf; hide CredsStep; hide ByCreds; hide RevokeStep; hide ByRevoke; hide WriteStep;
      hide ByWrite; hide Start; hide NewClient; hide Works; hide Inv;
      Yield(p);
      IsInv();
      ClientsBuild(View(), p);
      NextBuilds(View(), p);
      var s := View();
      ghost var sent := calls;
      var answered;
      ok, answered := TryCredential(p, NewClient(env, next).value.auth);
      SentLast(sent, |old(calls)|, Call(p, Verify(NewClient(env, next).value.auth), ok));
      Took(Act(p, if answered then Succeeds else Fails), s);
    }

    static lemma NextBuilds(s: State, p: Pid)
      requires Inv(s) && p in s.procs && s.procs[p].Rotate? && s.procs[p].t.VerifyRoot?
      ensures NewClient(s.env, s.procs[p].t.next).Ok?
    {
      hide WalOk; hide LeasesOk; hide LedgerOk; hide LocksOk; hide CacheOk;
      assert ProcOk(s, p, s.procs[p]);
      var c, next := s.procs[p].t.config, s.procs[p].t.next;
      BearerSwapBuilds(s.env, c, next.token, next.tokenId);
    }

    method StoreRotatedConfig(p: Pid, c: Config, next: Config) returns (ok: bool)
      requires Valid() && At(p, Rotate(PutRoot(c, next)))
      modifies this
      ensures Continues()
      ensures if ok then At(p, Rotate(ResetRoot(c.tokenId, next))) && config == Some(next)
              else At(p, Rotate(CleanupRoot(c, next.tokenId)))
      ensures Sent(calls, |old(calls)|, Call(p, SetConfig(next), ok))
    {
      hide Run; hide CallsOf; hide LoadRootStep; hide MintRootStep; hide VerifyRootStep; hide CleanupRootStep;
      hide ResetRootStep; hide RevokeOldStep; hide RecordOldStep; hide Called; hide CredsStep; hide RevokeStep;
      hide WriteStep; hide Start; hide NewClient;
      Yield(p);
      var s := View();
      ghost var sent := calls;
      ok := PutStored(p, next);
      SentLast(sent, |old(calls)|, Call(p, SetConfig(next), ok));
      StorageCalled(s, p, SetConfig(next), ok);
      Took(Act(p, if ok then Succeeds else Fails), s);
    }

    /** cleanupNewRootToken: true only if the token is gone; one that stays live is reported. */
    method CleanupNewRootToken(p: Pid, c: Config, id: int) returns (cleaned: bool)
      requires Valid() && At(p, Rotate(CleanupRoot(c, id)))
      modifies this
      ensures Continues() && p !in procs && id in ledger
      ensures cleaned ==> id !in aap.live
      ensures id in aap.live ==> ledger[id] == Orphan(RootCleanupFailed)
      ensures NewClient(env, c).Ok?
          && Sent(calls, |old(calls)|, Call(p, DeleteToken(NewClient(env, c).value.auth, id), cleaned))
    {
      hide Run; hide CallsOf; hide Next; hide Called; hide NewClient; hide Inv; hide MayDelete;
      Yield(p);
      IsInv();
      ClientsBuild(View(), p);
      var s := View();
      ghost var sent := calls;
      var reply;
      cleaned, reply := Delete(p, NewClient(env, c).value.auth, id);
      SentLast(sent, |old(calls)|, Call(p, DeleteToken(NewClient(env, c).value.auth, id), cleaned));
      configLock := None;
      CleanupEnds(s, p, c, id, reply);
      DeleteCalled(s, p, c, id, reply);
      Took(Act(p, DeleteReplied(reply)), s);
    }

    /** reset: drops the cached client. False if there is an old token to revoke next. */
    method ResetAfterRotation(p: Pid, oldId: int, next: Config) returns (done: bool)
      requires Valid() && At(p, Rotate(ResetRoot(oldId, next)))
      modifies this
      ensures Continues() && client == None && done == (oldId <= 0)
      ensures if done then p !in procs && config == Some(next) else At(p, Rotate(RevokeOld(oldId, next)))
    {
      hide Run; hide CallsOf; hide Called; hide CredsStep; hide RevokeStep; hide WriteStep; hide Start; hide NewClient;
      hide Inv;
      AwaitClientLock(p);
      IsInv();
      RotationHolds(View(), p);
      var s := View();
      client := None;
      done := oldId <= 0;
      if done { configLock := None; }
      NothingCalled(s, p, Succeeds);
      Took(Act(p, Succeeds), s);
    }

    lemma RotationHolds(s: State, p: Pid)
      requires Inv(s) && p in s.procs && s.procs[p].Rotate?
      ensures (s.procs[p].t.ResetRoot? || s.procs[p].t.RevokeOld? || s.procs[p].t.RecordOld?) ==> s.config == Some(s.procs[p].t.next)
    {
      hide NewClient; hide ServerOk; hide WalOk; hide LeasesOk; hide LedgerOk; hide LocksOk; hide CacheOk; hide RootOk;
      hide Carried;
      assert ProcOk(s, p, s.procs[p]);
    }

    method RevokeOldRoot(p: Pid, oldId: int, next: Config) returns (ok: bool)
      requires Valid() && At(p, Rotate(RevokeOld(oldId, next)))
      modifies this
      ensures Continues()
      ensures if ok then p !in procs && config == Some(next) && oldId !in aap.live else At(p, Rotate(RecordOld(oldId, next)))
      ensures NewClient(env, next).Ok?
          && Sent(calls, |old(calls)|, Call(p, DeleteToken(NewClient(env, next).value.auth, oldId), ok))
    {
      hide Run; hide CallsOf; hide LoadRootStep; hide MintRootStep; hide VerifyRootStep; hide PutRootStep;
      hide CleanupRootStep; hide ResetRootStep; hide RecordOldStep; hide Called; hide CredsStep; hide RevokeStep;
      hide WriteStep; hide Start; hide NewClient; hide Inv; hide MayDelete;
      Yield(p);
      IsInv();
      ClientsBuild(View(), p);
      RotationHolds(View(), p);
      var s := View();
      ghost var sent := calls;
      var reply;
      ok, reply := Delete(p, NewClient(env, next).value.auth, oldId);
      SentLast(sent, |old(calls)|, Call(p, DeleteToken(NewClient(env, next).value.auth, oldId), ok));
      if ok { configLock := None; }
      DeleteCalled(s, p, next, oldId, reply);
      Took(Act(p, DeleteReplied(reply)), s);
    }

    method RecordOldRoot(p: Pid, oldId: int, next: Config) returns (w: Option<nat>)
      requires Valid() && At(p, Rotate(RecordOld(oldId, next)))
      modifies this
      ensures Continues() && p !in procs && config == Some(next)
      ensures w.Some? ==> w.value in wal && wal[w.value] == Grant(oldId, "config/rotate-root", next)
      ensures Sent(calls, |old(calls)|, Call(p, AppendWal(Grant(oldId, "config/rotate-root", next)), w.Some?))
    {
      hide Run; hide CallsOf; hide Next; hide Called; hide Sent; hide CallFailed;
      hide NewClient; hide Inv;
      Yield(p);
      IsInv();
      RotationHolds(View(), p);
      var s := View();
      ghost var sent := calls;
      w := AppendEntry(p, Grant(oldId, "config/rotate-root", next));
      SentLast(sent, |old(calls)|, Call(p, AppendWal(Grant(oldId, "config/rotate-root", next)), w.Some?));
      configLock := None;
      StorageCalled(s, p, AppendWal(Grant(oldId, "config/rotate-root", next)), w.Some?);
      RecordOldEnds(s, p, oldId, next);
      Took(Act(p, if w.Some? then Succeeds else Fails), s);
    }

    /** Once the new configuration is stored: reset, then revoke the previous token or record it. */
    method FinishRotation(p: Pid, oldId: int, next: Config) returns (previous: OldToken)
      requires Valid() && At(p, Rotate(ResetRoot(oldId, next)))
      modifies this
      ensures Continues() && p !in procs && config == Some(next) && Accounted(previous) && Concerns(previous, oldId)
      ensures RevokedAs(previous, calls, |old(calls)|, p, env, next)
    {
      hide Run; hide CallsOf; hide Next; hide View; hide Sent; hide NewClient;
      var done := ResetAfterRotation(p, oldId, next);
      if done { return Unknown; }
      ghost var sent := calls;
      var revoked := RevokeOldRoot(p, oldId, next);
      SentStays(calls, calls, |sent|, |old(calls)|, Call(p, DeleteToken(NewClient(env, next).value.auth, oldId),
          revoked));
      if revoked { return OldToken.Gone(oldId); }
      ghost var refused := calls;
      var w := RecordOldRoot(p, oldId, next);
      SentStays(refused, calls, |sent|, |old(calls)|, Call(p, DeleteToken(NewClient(env, next).value.auth, oldId),
          false));
      SentStays(calls, calls, |refused|, |old(calls)|, Call(p, AppendWal(Grant(oldId, "config/rotate-root", next)),
          w.Some?));
      previous := match w case Some(entry) => RetryRecorded(oldId, entry) case None => Unrecorded(oldId);
    }

    /** The report is about this token, or says that the engine did not know its id. */
    static predicate Concerns(previous: OldToken, oldId: int) {
      if oldId <= 0 then previous.Unknown? else !previous.Unknown? && previous.id == oldId
    }

    /** Whatever is reported of the previous token, its DELETE was sent with the new credential, and was confirmed
        if it is gone; only if it was not, a retry was recorded, or could not be. */
    static ghost predicate RevokedAs(previous: OldToken, calls: seq<Call>, before: nat, p: Pid, env: Env,
        next: Config) {
      previous.Unknown? ||
      (&& NewClient(env, next).Ok?
       && Sent(calls, before, Call(p, DeleteToken(NewClient(env, next).value.auth, previous.id), previous.Gone?))
       && (!previous.Gone? ==>
             Sent(calls, before, Call(p, AppendWal(Grant(previous.id, "config/rotate-root", next)),
                 previous.RetryRecorded?))))
    }

    /** At some point after the log's first `before` entries the stored configuration was one that next is a
        rotation of, and the report is about its token. */
    static ghost predicate Rotates(start: State, log: seq<Action>, before: nat, next: Config, previous: OldToken) {
      exists c :: StoredSince(start, log, before, Some(c)) && next == c.(token := next.token, tokenId := next.tokenId)
                  && Concerns(previous, c.tokenId)
    }

    predicate Accounted(previous: OldToken)
      reads this
    {
      match previous
      case Gone(id) => id !in aap.live
      case RetryRecorded(id, w) => w in wal && wal[w].id == id
      case _ => true
    }

    /** The DELETE of a new token that was not stored was sent with the credential that minted it. */
    static ghost predicate TriedToClean(start: State, log: seq<Action>, before: nat, calls: seq<Call>, from: nat,
        p: Pid,
        newId: int, cleaned: bool)
    {
      exists c :: StoredSince(start, log, before, Some(c)) && NewClient(start.env, c).Ok?
                  && Sent(calls, from, Call(p, DeleteToken(NewClient(start.env, c).value.auth, newId), cleaned))
    }

    method RotateLocked(p: Pid) returns (r: RotateResult)
      requires Valid() && At(p, Rotate(LoadRoot))
      modifies this
      ensures Continues() && p !in procs
      ensures r.KeptOld? ==> r.newId !in old(aap.tokens) && (r.cleaned ==> r.newId !in aap.live)
      ensures r.Rotated? ==>
                && config == Some(r.next) && r.next.tokenId > 0 && r.next.tokenId !in old(aap.tokens)
                && Accounted(r.previous) && Rotates(start, log, |old(log)|, r.next, r.previous)
      ensures r.GaveUp? ==> CallFailed(calls, |old(calls)|, p) || UnusableSince(start, log, |old(log)|, true)
      ensures r.KeptOld? ==>
                && CallFailed(calls, |old(calls)|, p)
                && TriedToClean(start, log, |old(log)|, calls, |old(calls)|, p, r.newId, r.cleaned)
      ensures r.Rotated? ==> RevokedAs(r.previous, calls, |old(calls)|, p, env, r.next)
    {
      hide Run; hide CallsOf; hide Next; hide Accounted; hide StoredSince; hide Concerns; hide Initial; hide Sent;
      hide CallFailed; hide UnusableSince; hide NewClient; hide RevokedAs; hide TriedToClean;
      ghost var before, from := |log|, |calls|;
      var c := LoadRootConfig(p);
      if c.None? {
        if Sent(calls, from, Call(p, GetConfig, false)) { SentFailed(calls, from, Call(p, GetConfig, false)); }
        return GaveUp;
      }
      ghost var past := log;
      PastIsKept(start, old(log), log);
      ghost var loaded := calls;
      var next := MintRootToken(p, c.value);
      if next.None? {
        FailedStays(calls, calls, |loaded|, from, p);
        return GaveUp;
      }
      ghost var minted := calls;
      r := RotateMinted(p, c.value, next.value);
      StoredStays(start, past, log, before, before, c);
      SameEnv(start, log);
      CarriesBack(r, past, before, from, |minted|, p, c.value);
    }

    /** What the part after the mint found holds of the whole rotation. */
    lemma CarriesBack(r: RotateResult, past: seq<Action>, before: nat, from: nat, minted: nat, p: Pid, c: Config)
      requires before <= |past| <= |log| && past <= log && from <= minted <= |calls|
          && StoredSince(start, log, before, Some(c))
      requires r.KeptOld? ==>
                 && CallFailed(calls, minted, p) && NewClient(start.env, c).Ok?
                 && Sent(calls, minted, Call(p, DeleteToken(NewClient(start.env, c).value.auth, r.newId), r.cleaned))
      requires r.Rotated? ==> RevokedAs(r.previous, calls, minted, p, env, r.next)
      ensures r.KeptOld? ==> CallFailed(calls, from, p) && TriedToClean(start, log, before, calls, from, p, r.newId, r.cleaned)
      ensures r.Rotated? ==> RevokedAs(r.previous, calls, from, p, env, r.next)
    {
      hide StoredSince; hide NewClient; hide Sent; hide CallFailed;
      if r.KeptOld? {
        FailedStays(calls, calls, minted, from, p);
        SentStays(calls, calls, minted, from, Call(p, DeleteToken(NewClient(start.env, c).value.auth, r.newId),
            r.cleaned));
      }
      if r.Rotated? && !r.previous.Unknown? {
        var auth, id := NewClient(env, r.next).value.auth, r.previous.id;
        SentStays(calls, calls, minted, from, Call(p, DeleteToken(auth, id), r.previous.Gone?));
        if !r.previous.Gone? {
          SentStays(calls, calls, minted, from,
                    Call(p, AppendWal(Grant(id, "config/rotate-root", r.next)), r.previous.RetryRecorded?));
        }
      }
    }

    /** From the new token to its place in storage, or to its cleanup. */
    method RotateMinted(p: Pid, c: Config, next: Config) returns (r: RotateResult)
      requires Valid() && At(p, Rotate(VerifyRoot(c, next)))
      modifies this
      ensures Continues() && p !in procs && !r.GaveUp?
      ensures r.KeptOld? ==>
                && r.newId == next.tokenId && (r.cleaned ==> r.newId !in aap.live) && CallFailed(calls, |old(calls)|, p)
                && NewClient(env, c).Ok?
                && Sent(calls, |old(calls)|, Call(p, DeleteToken(NewClient(env, c).value.auth, r.newId), r.cleaned))
      ensures r.Rotated? ==>
                && r.next == next && config == Some(next) && Accounted(r.previous) && Concerns(r.previous, c.tokenId)
                && RevokedAs(r.previous, calls, |old(calls)|, p, env, next)
    {
      hide Run; hide CallsOf; hide Next; hide Accounted; hide Concerns; hide Initial; hide Sent; hide CallFailed;
      hide NewClient; hide View; hide RevokedAs; hide Works;
      ghost var from := |calls|;
      var ok := VerifyRootToken(p, c, next);
      if !ok { SentFailed(calls, from, Call(p, Verify(NewClient(env, next).value.auth), false)); }
      ghost var tried := calls;
      if ok {
        ok := StoreRotatedConfig(p, c, next);
        if !ok {
          SentFailed(calls, |tried|, Call(p, SetConfig(next), false));
          FailedStays(calls, calls, |tried|, from, p);
        }
      }
      ghost var stored := calls;
      if ok {
        var previous := FinishRotation(p, c.tokenId, next);
        r := Rotated(next, previous);
        RevokedSince(previous, calls, |stored|, from, p, env, next);
      } else {
        var cleaned := CleanupNewRootToken(p, c, next.tokenId);
        r := KeptOld(next.tokenId, cleaned);
        FailedStays(stored, calls, from, from, p);
        SentStays(calls, calls, |stored|, from, Call(p, DeleteToken(NewClient(env, c).value.auth, next.tokenId),
            cleaned));
      }
    }

    static lemma RevokedSince(previous: OldToken, calls: seq<Call>, before: nat, earlier: nat, p: Pid, env: Env,
        next: Config)
      requires earlier <= before && RevokedAs(previous, calls, before, p, env, next)
      ensures RevokedAs(previous, calls, earlier, p, env, next)
    {
      hide NewClient; hide Sent;
      if !previous.Unknown? {
        var auth := NewClient(env, next).value.auth;
        SentStays(calls, calls, before, earlier, Call(p, DeleteToken(auth, previous.id), previous.Gone?));
        if !previous.Gone? {
          SentStays(calls, calls, before, earlier,
                    Call(p, AppendWal(Grant(previous.id, "config/rotate-root", next)), previous.RetryRecorded?));
        }
      }
    }

    /** rotateRoot. Whatever the others do meanwhile, Rotated means that this call minted a token that was not
        known before, that the configuration it found stored is stored again with nothing but that token
        exchanged, that the token is live, and that the one it replaced is dead, recorded for retry, reported,
        or of unknown id. KeptOld names a token that this call minted, for which a DELETE was sent. Nothing but a
        call that failed, or a configuration that cannot rotate, makes it give up or keep the old credential. */
    method RotateRoot(p: Pid) returns (r: RotateResult)
      requires Valid() && p !in procs
      modifies this
      ensures Continues() && Began(start, log, |old(log)|, p, Rotating) && p !in procs
      ensures r.KeptOld? ==> r.newId !in old(aap.tokens) && (r.cleaned ==> r.newId !in aap.live)
      ensures r.Rotated? ==>
                && config == Some(r.next) && r.next.tokenId in aap.live && r.next.tokenId in aap.tokens
                && r.next.tokenId !in old(aap.tokens) && aap.tokens[r.next.tokenId].secret == r.next.token
                && Accounted(r.previous) && Rotates(start, log, |old(log)|, r.next, r.previous)
      ensures r.GaveUp? ==> CallFailed(calls, |old(calls)|, p) || UnusableSince(start, log, |old(log)|, true)
      ensures r.KeptOld? ==>
                && CallFailed(calls, |old(calls)|, p)
                && TriedToClean(start, log, |old(log)|, calls, |old(calls)|, p, r.newId, r.cleaned)
      ensures r.Rotated? ==> RevokedAs(r.previous, calls, |old(calls)|, p, env, r.next)
    {
      hide Sent; hide CallFailed; hide UnusableSince; hide RevokedAs; hide TriedToClean; hide NewClient; hide Run;
      hide CallsOf; hide Next; hide Inv; hide Began; hide Accounted; hide StoredSince; hide Concerns; hide Initial;
      ghost var before := |log|;
      BeginRotation(p);
      ghost var past, sent := log, calls;
      PastIsKept(start, old(log), log);
      r := RotateLocked(p);
      BeganStays(start, past, log, |old(log)|, p, Rotating);
      IsInv();
      SinceBegin(r, past, |old(log)|, |sent|, |old(calls)|, p);
      if r.Rotated? {
        RootWorks(View());
        RotatesSince(start, log, |past|, before, r.next, r.previous);
      }
    }

    lemma SinceBegin(r: RotateResult, past: seq<Action>, before: nat, begun: nat, from: nat, p: Pid)
      requires before <= |past| <= |log| && past <= log && from <= begun <= |calls|
      requires r.GaveUp? ==> CallFailed(calls, begun, p) || UnusableSince(start, log, |past|, true)
      requires r.KeptOld? ==> CallFailed(calls, begun, p) && TriedToClean(start, log, |past|, calls, begun, p, r.newId, r.cleaned)
      requires r.Rotated? ==> RevokedAs(r.previous, calls, begun, p, env, r.next)
      ensures r.GaveUp? ==> CallFailed(calls, from, p) || UnusableSince(start, log, before, true)
      ensures r.KeptOld? ==> CallFailed(calls, from, p) && TriedToClean(start, log, before, calls, from, p, r.newId, r.cleaned)
      ensures r.Rotated? ==> RevokedAs(r.previous, calls, from, p, env, r.next)
    {
      hide Sent; hide CallFailed; hide UnusableSince; hide RevokedAs; hide NewClient; hide StoredSince;
      if CallFailed(calls, begun, p) { FailedStays(calls, calls, begun, from, p); }
      if UnusableSince(start, log, |past|, true) { UnusableStays(start, log, log, |past|, before, true); }
      if r.Rotated? { RevokedSince(r.previous, calls, begun, from, p, env, r.next); }
      if r.KeptOld? {
        var c :| StoredSince(start, log, |past|, Some(c)) && NewClient(start.env, c).Ok?
                 && Sent(calls, begun, Call(p, DeleteToken(NewClient(start.env, c).value.auth, r.newId), r.cleaned));
        StoredStays(start, log, log, |past|, before, Some(c));
        SentStays(calls, calls, begun, from, Call(p, DeleteToken(NewClient(start.env, c).value.auth, r.newId),
            r.cleaned));
      }
    }

    static lemma RotatesSince(start: State, log: seq<Action>, before: nat, earlier: nat, next: Config,
        previous: OldToken)
      requires earlier <= before && Rotates(start, log, before, next, previous)
      ensures Rotates(start, log, earlier, next, previous)
    {
      hide StoredSince; hide Concerns;
      var c :| StoredSince(start, log, before, Some(c)) && next == c.(token := next.token, tokenId := next.tokenId)
               && Concerns(previous, c.tokenId);
      StoredStays(start, log, log, before, earlier, Some(c));
    }

    // ----- config writes and deletes

    method BeginWrite(p: Pid, op: Op)
      requires Valid() && p !in procs && (op.Writing? || op.Deleting?)
      modifies this
      ensures Continues() && Began(start, log, |old(log)|, p, op)
      ensures At(p, Write(if op.Writing? then Merge(op.create, op.fields) else Remove))
    {
      hide Run; hide CallsOf;
      AwaitConfigLock(p);
      var s := View();
      ghost var past := log;
      configLock := Some(p);
      Took(Act(p, Begin(op)), s);
      JustBegan(start, past, |old(log)|, p, op);
    }

    method MergeWrite(p: Pid, create: bool, fields: Fields) returns (r: Result<Config, WriteFailure>)
      requires Valid() && At(p, Write(Merge(create, fields)))
      modifies this
      ensures Continues()
      ensures if r.Ok? then At(p, Write(Probe(r.value))) else p !in procs
      ensures r.Err? && r.error.Invalid? ==> Accept(env, config, create, fields) == Err(r.error.e)
      ensures r.Ok? ==> exists st :: StoredSince(start, log, |old(log)|, st) && Accept(env, st, create, fields) == Ok(r.value)
      ensures r.Err? && !r.error.Invalid? ==> r.error.Unavailable? && CallFailed(calls, |old(calls)|, p)
    {
      hide Run; hide ConfigWrite.TakesFields; hide Secure; hide NewClient; hide CallsOf; hide Next; hide Called;
      hide Sent; hide CallFailed; hide Accept; hide StoredSince;
      Yield(p);
      var s := View();
      ghost var st, past, sent := config, log, calls;
      StoredNow(start, log, |old(log)|);
      var readable := LoadStored(p);
      SentLast(sent, |old(calls)|, Call(p, GetConfig, readable));
      StorageCalled(s, p, GetConfig, readable);
      MergeEnds(s, p, create, fields);
      if !readable {
        configLock := None;
        Took(Act(p, Fails), s);
        return Err(Unavailable);
      }
      var merged := MergeAndValidate(env, config, create, fields);
      if merged.Err? { configLock := None; }
      Took(Act(p, Succeeds), s);
      StoredStays(start, past, log, |old(log)|, |old(log)|, st);
      r := match merged case Ok(c) => Ok(c) case Err(e) => Err(Invalid(e));
    }

    method ProbeWrite(p: Pid, c: Config) returns (ok: bool)
      requires Valid() && At(p, Write(Probe(c)))
      modifies this
      ensures Continues()
      ensures if ok then At(p, Write(PutConfig(c))) else p !in procs
      ensures NewClient(env, c).Ok? && (ok ==> Works(aap, NewClient(env, c).value.auth))
      ensures Sent(calls, |old(calls)|, Call(p, Verify(NewClient(env, c).value.auth), ok))
    {
      hide Run; hide CallsOf; hide CredsStep; hide ByCreds; hide RevokeStep; hide ByRevoke; hide RotateStep;
      hide ByRotate; hide Start; hide NewClient; hide Works; hide Inv;
      Yield(p);
      IsInv();
      ProbeBuilds(View(), p);
      var s := View();
      ghost var sent := calls;
      var answered;
      ok, answered := TryCredential(p, NewClient(env, c).value.auth);
      SentLast(sent, |old(calls)|, Call(p, Verify(NewClient(env, c).value.auth), ok));
      if !ok { configLock := None; }
      Took(Act(p, if answered then Succeeds else Fails), s);
    }

    static lemma ProbeBuilds(s: State, p: Pid)
      requires Inv(s) && p in s.procs && s.procs[p].Write? && s.procs[p].w.Probe?
      ensures NewClient(s.env, s.procs[p].w.config).Ok?
    {
      hide ServerOk; hide WalOk; hide LeasesOk; hide LedgerOk; hide LocksOk; hide CacheOk; hide NewClient;
      assert ProcOk(s, p, s.procs[p]);
    }

    method StoreWrite(p: Pid, c: Config) returns (ok: bool)
      requires Valid() && At(p, Write(PutConfig(c)))
      modifies this
      ensures Continues()
      ensures if ok then At(p, Write(ResetClient)) && config == Some(c) else p !in procs
      ensures Sent(calls, |old(calls)|, Call(p, SetConfig(c), ok))
    {
      hide Run; hide CallsOf; hide MergeStep; hide ProbeStep; hide RemoveStep; hide ResetClientStep; hide Called;
      hide CredsStep; hide RevokeStep; hide RotateStep; hide Start;
      Yield(p);
      var s := View();
      ghost var sent := calls;
      ok := PutStored(p, c);
      SentLast(sent, |old(calls)|, Call(p, SetConfig(c), ok));
      if !ok { configLock := None; }
      StorageCalled(s, p, SetConfig(c), ok);
      Took(Act(p, if ok then Succeeds else Fails), s);
    }

    method RemoveStored(p: Pid) returns (ok: bool)
      requires Valid() && At(p, Write(Remove))
      modifies this
      ensures Continues()
      ensures if ok then At(p, Write(ResetClient)) && config == None else p !in procs
      ensures Sent(calls, |old(calls)|, Call(p, DropConfig, ok))
    {
      hide Run; hide CallsOf; hide MergeStep; hide ProbeStep; hide PutConfigStep; hide ResetClientStep; hide Called;
      hide CredsStep; hide RevokeStep; hide RotateStep; hide Start;
      Yield(p);
      var s := View();
      ghost var sent := calls;
      ok := DeleteStored(p);
      SentLast(sent, |old(calls)|, Call(p, DropConfig, ok));
      if !ok { configLock := None; }
      StorageCalled(s, p, DropConfig, ok);
      Took(Act(p, if ok then Succeeds else Fails), s);
    }

    /** reset, and the release of configLock on return. */
    method Reset(p: Pid)
      requires Valid() && At(p, Write(ResetClient))
      modifies this
      ensures Continues() && p !in procs && client == None && config == old(config)
    {
      hide Run; hide CallsOf; hide Called; hide CredsStep; hide RevokeStep; hide RotateStep; hide Start;
      AwaitClientLock(p);
      var s := View();
      client := None;
      configLock := None;
      NothingCalled(s, p, Succeeds);
      Took(Act(p, Succeeds), s);
    }

    /** pathConfigWrite. An accepted write is what these fields make of a configuration stored during the call;
        it takes every field given, with an https endpoint; it is stored when the call returns, well formed, with no
        stale client. A refusal names what the configuration then stored makes of it; any other failure is that of a
        storage call, or of the probe that was sent with the new credential. */
    method WriteConfig(p: Pid, create: bool, fields: Fields) returns (r: Result<Config, WriteFailure>)
      requires Valid() && p !in procs
      modifies this
      ensures Continues() && Began(start, log, |old(log)|, p, Writing(create, fields)) && p !in procs
      ensures r.Ok? ==> config == Some(r.value) && WellFormed(env, r.value) && client == None
      ensures r.Ok? ==> exists st :: StoredSince(start, log, |old(log)|, st) && WrittenOver(st, create, fields, r.value)
      ensures r.Err? && r.error.Invalid? ==> Accept(env, config, create, fields) == Err(r.error.e)
      ensures r.Err? && !r.error.Invalid? ==> CallFailed(calls, |old(calls)|, p)
      ensures r == Err(ProbeFailed) ==>
                exists st, c ::
                  && StoredSince(start, log, |old(log)|, st) && Accept(env, st, create, fields) == Ok(c)
                  && Probed(p, c, |old(calls)|)
    {
      hide Run; hide CallsOf; hide Next; hide Inv; hide Began; hide Accept; hide WellFormed; hide NewClient;
      hide StoredSince; hide Sent; hide CallFailed; hide WrittenOver; hide Probed; hide Initial;
      ghost var from := |calls|;
      BeginWrite(p, Writing(create, fields));
      ghost var past, begun := log, calls;
      r := MergeWrite(p, create, fields);
      if r.Ok? {
        var c := r.value;
        ghost var merged, probing := log, calls;
        ghost var st :| StoredSince(start, log, |past|, st) && Accept(env, st, create, fields) == Ok(c);
        r := ProbeAndStore(p, c);
        StoredStays(start, merged, log, |past|, |old(log)|, st);
        if r.Ok? { IsWrittenOver(st, create, fields, c); }
        if r.Err? { FailedStays(calls, calls, |probing|, from, p); }
        if r == Err(ProbeFailed) { ProbedSince(p, c, |probing|, from); }
      } else if !r.error.Invalid? {
        FailedStays(calls, calls, |begun|, from, p);
      }
      BeganStays(start, past, log, |old(log)|, p, Writing(create, fields));
      IsInv();
      StoredIsWellFormed(View());
    }

    /** The merged configuration over this stored one: what the specification accepts, with every field given. */
    predicate WrittenOver(st: Option<Config>, create: bool, fields: Fields, c: Config) {
      && Accept(env, st, create, fields) == Ok(c) && ConfigWrite.TakesFields(c, st, fields)
      && NewClient(env, c).Ok? && Secure(env, NewClient(env, c).value)
    }

    lemma IsWrittenOver(st: Option<Config>, create: bool, fields: Fields, c: Config)
      requires Accept(env, st, create, fields) == Ok(c)
      ensures WrittenOver(st, create, fields, c)
    {
      hide Accept; hide ConfigWrite.TakesFields; hide Secure; hide NewClient;
      ConfigWrite.AcceptedTakesFields(env, st, create, fields);
    }

    /** The configuration's credential was tried, and refused. */
    ghost predicate Probed(p: Pid, c: Config, from: nat)
      reads this`calls
    {
      NewClient(env, c).Ok? && Sent(calls, from, Call(p, Verify(NewClient(env, c).value.auth), false))
    }

    lemma ProbedSince(p: Pid, c: Config, before: nat, from: nat)
      requires from <= before && Probed(p, c, before)
      ensures Probed(p, c, from)
    {
      hide NewClient; hide Sent;
      SentStays(calls, calls, before, from, Call(p, Verify(NewClient(env, c).value.auth), false));
    }

    method ProbeAndStore(p: Pid, c: Config) returns (r: Result<Config, WriteFailure>)
      requires Valid() && At(p, Write(Probe(c)))
      modifies this
      ensures Continues() && p !in procs
      ensures match r
              case Ok(v) => v == c && config == Some(c) && client == None
              case Err(e) => !e.Invalid? && CallFailed(calls, |old(calls)|, p) && (e.ProbeFailed? ==> Probed(p, c, |old(calls)|))
    {
      hide Run; hide CallsOf; hide Next; hide NewClient; hide Works; hide Sent; hide CallFailed; hide View;
      ghost var from := |calls|;
      var ok := ProbeWrite(p, c);
      if !ok {
        SentFailed(calls, from, Call(p, Verify(NewClient(env, c).value.auth), false));
        return Err(ProbeFailed);
      }
      ghost var probed := calls;
      ok := StoreWrite(p, c);
      if !ok {
        SentFailed(calls, |probed|, Call(p, SetConfig(c), false));
        FailedStays(calls, calls, |probed|, from, p);
        return Err(Unavailable);
      }
      Reset(p);
      r := Ok(c);
    }

    /** pathConfigDelete: false only if storage failed. */
    method DeleteConfig(p: Pid) returns (ok: bool)
      requires Valid() && p !in procs
      modifies this
      ensures Continues() && Began(start, log, |old(log)|, p, Deleting) && p !in procs
      ensures ok ==> config == None && client == None
      ensures Sent(calls, |old(calls)|, Call(p, DropConfig, ok))
    {
      hide Run; hide CallsOf; hide Next; hide Began; hide Sent;
      BeginWrite(p, Deleting);
      ghost var past, begun := log, calls;
      ok := RemoveStored(p);
      ghost var sent := calls;
      if ok { Reset(p); }
      SentStays(sent, calls, |begun|, |old(calls)|, Call(p, DropConfig, ok));
      BeganStays(start, past, log, |old(log)|, p, Deleting);
    }

    // ----- Lease revocation and WAL rollback

    static method DecodeTarget(env: Env, id: int, data: Data) returns (t: Result<Target, DecodeError>)
      ensures t == TargetWith(env, id, data)
    {
      var snapshot := ConfigFromRevocationData(data);
      match snapshot {
        case Err(e) => return Err(e);
        case Ok(None) => return Ok(Target(id, None));
        case Ok(Some(c)) =>
          var built := NewClient(env, c);
          return Ok(Target(id, match built case Ok(k) => Some(k) case Err(_) => None));
      }
    }

    /** What tokenRevoke reads from a lease, and walRollback from a WAL entry. */
    method ReadTarget(src: Source) returns (t: Result<Target, DecodeError>)
      ensures t == TargetOf(View(), src)
    {
      match src {
        case FromLease(l) =>
          if l !in leases { return Err(MissingTokenId); }
          var g := leases[l].grant;
          var data := StoredLease(g.id, g.role, Some(g.config), env.keepsNumberText);
          if TOKEN_ID !in data { return Err(MissingTokenId); }
          var id := CoerceInt64(data[TOKEN_ID]);
          if id.Err? { return Err(id.error); }
          t := DecodeTarget(env, id.value, data);
        case FromWal(w) =>
          if w !in wal { return Err(MissingTokenId); }
          var g := wal[w];
          var data := StoredWal(g.id, g.role, Some(g.config), env.keepsNumberText);
          if TOKEN_ID !in data || !data[TOKEN_ID].Str? { return Err(MissingTokenId); }
          var id := ParseInt(data[TOKEN_ID].s);
          if id.Err? { return Err(Malformed); }
          t := DecodeTarget(env, id.value, data);
      }
    }

    method BeginRevocation(p: Pid, src: Source) returns (t: Option<Target>)
      requires Valid() && p !in procs
      modifies this
      ensures Continues()
      ensures t.None? ==> p !in procs && !Recorded(View(), src)
      ensures t.Some? ==>
                && Began(start, log, |old(log)|, p, Revoking(src))
                && At(p, Revoke(src, BySnapshot(t.value.id, t.value.client)))
                && Recorded(View(), src) && GrantOf(View(), src).id == t.value.id
                && NewClient(env, GrantOf(View(), src).config).Ok?
                && t.value.client == Some(NewClient(env, GrantOf(View(), src).config).value)
    {
      hide Run; hide CallsOf; hide Inv; hide TargetOf; hide NewClient; hide WellFormed; hide CredsStep; hide ByCreds;
      hide RotateStep; hide ByRotate; hide WriteStep; hide ByWrite; hide RevokeStep; hide ByRevoke;
      Yield(p);
      IsInv();
      TargetIsGrant(View(), src);
      var s := View();
      ghost var past := log;
      var target := ReadTarget(src);
      if target.Err? { return None; }
      t := Some(target.value);
      Took(Act(p, Begin(Revoking(src))), s);
      JustBegan(start, past, |old(log)|, p, Revoking(src));
    }

    /** `since` is the configuration version already settled when the fallback begins. */
    method TrySnapshot(p: Pid, src: Source, id: int, snapshot: Option<AapClient>) returns (ok: bool, since: nat)
      requires Valid() && At(p, Revoke(src, BySnapshot(id, snapshot)))
      modifies this
      ensures Continues()
      ensures At(p, Revoke(src, if ok then Revoked(id) else CheckCache(id, since)))
      ensures if snapshot.Some? then Sent(calls, |old(calls)|, Call(p, DeleteToken(snapshot.value.auth, id), ok)) else !ok
    {
      hide Run; hide CallsOf; hide MayDelete; hide CredsStep; hide ByCreds; hide RotateStep; hide ByRotate;
      hide WriteStep; hide ByWrite; hide Start;
      Yield(p);
      var s := View();
      ok, since := false, settled;
      ghost var sent := calls;
      if snapshot.Some? {
        var reply;
        ok, reply := Delete(p, snapshot.value.auth, id);
        SentLast(sent, |old(calls)|, Call(p, DeleteToken(snapshot.value.auth, id), ok));
        Took(Act(p, DeleteReplied(reply)), s);
      } else {
        Took(Act(p, Succeeds), s);
      }
    }

    /** getClient: double-checked under the read lock and then the write lock. */
    method GetClient(p: Pid, src: Source, id: int, since: nat) returns (k: Option<Cached>)
      requires Valid() && At(p, Revoke(src, CheckCache(id, since)))
      modifies this
      ensures Continues()
      ensures match k case Some(c) => At(p, Revoke(src, ByCurrent(id, since, c))) && since <= c.version case None => p !in procs
      ensures k.Some? && k.value.version == version ==> config.Some? && NewClient(env, config.value) == Ok(k.value.client)
      ensures k.None? ==> NoClient(start, log, |old(log)|, calls, |old(calls)|, p, id)
    {
      hide Run; hide CallsOf; hide Next; hide Inv; hide NewClient; hide NoClient;
      k := PeekClient(p, src, id, since);
      if k.None? {
        LockClient(p, src, id, since);
        ghost var locked, sent := log, calls;
        k := BuildClient(p, src, id, since);
        if k.None? { NoClientSince(start, log, |locked|, |old(log)|, calls, |sent|, |old(calls)|, p, id); }
      }
      IsInv();
      if k.Some? { HasClient(View(), p); }
    }

    /** getClient failed: its storage read did, or what it read yields no client. */
    static ghost predicate NoClient(start: State, log: seq<Action>, before: nat, calls: seq<Call>, from: nat, p: Pid,
        id: int) {
      && (Sent(calls, from, Call(p, GetConfig, false)) || UnusableSince(start, log, before, false))
      && GaveUpSince(start, log, before, p, id, None)
    }

    static lemma NoClientSince(start: State, log: seq<Action>, before: nat, earlier: nat, calls: seq<Call>,
        from: nat, since: nat,
        p: Pid, id: int)
      requires earlier <= before && since <= from && NoClient(start, log, before, calls, from, p, id)
      ensures NoClient(start, log, earlier, calls, since, p, id)
    {
      hide Sent; hide UnusableSince; hide GaveUpSince;
      if Sent(calls, from, Call(p, GetConfig, false)) { SentStays(calls, calls, from, since, Call(p, GetConfig, false)); }
      if UnusableSince(start, log, before, false) { UnusableStays(start, log, log, before, earlier, false); }
      GaveUpEarlier(start, log, before, earlier, p, id, None);
    }

    static lemma HasClient(s: State, p: Pid)
      requires Inv(s) && p in s.procs && s.procs[p].Revoke? && s.procs[p].r.ByCurrent?
      ensures s.procs[p].r.since <= s.procs[p].r.current.version && CachedOk(s, s.procs[p].r.current)
    {
      hide NewClient; hide ServerOk; hide WalOk; hide LeasesOk; hide LedgerOk; hide LocksOk; hide CacheOk; hide RootOk;
      assert ProcOk(s, p, s.procs[p]);
    }

    /** Under the read lock. */
    method PeekClient(p: Pid, src: Source, id: int, since: nat) returns (k: Option<Cached>)
      requires Valid() && At(p, Revoke(src, CheckCache(id, since)))
      modifies this
      ensures Continues()
      ensures At(p, Revoke(src, match k case Some(c) => ByCurrent(id, since, c) case None => AwaitLock(id, since)))
    {
      hide Run; hide CallsOf; hide Called; hide NewClient; hide CredsStep; hide RotateStep; hide WriteStep; hide Start;
      AwaitClientLock(p);
      var s := View();
      k := client;
      NothingCalled(s, p, Succeeds);
      Took(Act(p, Succeeds), s);
    }

    /** The upgrade to the write lock. */
    method LockClient(p: Pid, src: Source, id: int, since: nat)
      requires Valid() && At(p, Revoke(src, AwaitLock(id, since)))
      modifies this
      ensures Continues() && At(p, Revoke(src, LoadClient(id, since)))
    {
      hide Run; hide CallsOf; hide Called; hide NewClient; hide CredsStep; hide RotateStep; hide WriteStep; hide Start;
      AwaitClientLock(p);
      var s := View();
      lock := Some(p);
      NothingCalled(s, p, Succeeds);
      Took(Act(p, Succeeds), s);
    }

    /** Under the write lock: check again, else build from storage and keep. */
    method BuildClient(p: Pid, src: Source, id: int, since: nat) returns (k: Option<Cached>)
      requires Valid() && At(p, Revoke(src, LoadClient(id, since)))
      modifies this
      ensures Continues()
      ensures match k
              case Some(c) => At(p, Revoke(src, ByCurrent(id, since, c)))
              case None => p !in procs && NoClient(start, log, |old(log)|, calls, |old(calls)|, p, id)
    {
      hide Run; hide CallsOf; hide Called; hide NewClient; hide CredsStep; hide RotateStep; hide WriteStep; hide Start;
      hide BySnapshotStep; hide CheckCacheStep; hide AwaitLockStep; hide StoreClientStep; hide ByCurrentStep;
      hide RevokedStep; hide NoClient;
      Yield(p);
      if client.Some? {
        var s := View();
        k := client;
        lock := None;
        NothingCalled(s, p, Succeeds);
        Took(Act(p, Succeeds), s);
        return;
      }
      ghost var past, sent := log, calls;
      k := ReadClient(p, src, id, since);
      if k.Some? { KeepClient(p, src, id, since, k.value); }
      else { NoClientSince(start, log, |past|, |old(log)|, calls, |sent|, |old(calls)|, p, id); }
    }

    /** The client of the stored configuration, of this version. */
    method ReadClient(p: Pid, src: Source, id: int, since: nat) returns (k: Option<Cached>)
      requires Valid() && At(p, Revoke(src, LoadClient(id, since))) && client == None
      modifies this
      ensures Continues()
      ensures match k
              case Some(c) => At(p, Revoke(src, StoreClient(id, since, c)))
              case None => p !in procs && NoClient(start, log, |old(log)|, calls, |old(calls)|, p, id)
    {
      hide Run; hide CallsOf; hide Called; hide NewClient; hide CredsStep; hide RotateStep; hide WriteStep; hide Start;
      hide BySnapshotStep; hide CheckCacheStep; hide AwaitLockStep; hide StoreClientStep; hide ByCurrentStep;
      hide RevokedStep; hide UnusableSince; hide GaveUpSince; hide Sent; hide CallFailed; hide Initial;
      SameEnv(start, log);
      var s := View();
      ghost var past, sent := log, calls;
      var readable := LoadStored(p);
      SentLast(sent, |old(calls)|, Call(p, GetConfig, readable));
      StorageCalled(s, p, GetConfig, readable);
      if !readable || config.None? || NewClient(env, config.value).Err? {
        if readable { UnusableNow(start, past, |old(log)|, false); }
        lock := None;
        Took(Act(p, if readable then Succeeds else Fails), s);
        GaveUpNow(start, past, Act(p, if readable then Succeeds else Fails), |old(log)|, id, None);
        if readable { UnusableStays(start, past, log, |old(log)|, |old(log)|, false); }
        return None;
      }
      k := Some(Cached(NewClient(env, config.value).value, version));
      Took(Act(p, Succeeds), s);
    }

    method KeepClient(p: Pid, src: Source, id: int, since: nat, built: Cached)
      requires Valid() && At(p, Revoke(src, StoreClient(id, since, built)))
      modifies this
      ensures Continues() && At(p, Revoke(src, ByCurrent(id, since, built))) && client == Some(built)
    {
      hide Run; hide CallsOf; hide Called; hide NewClient; hide CredsStep; hide RotateStep; hide WriteStep; hide Start;
      Yield(p);
      var s := View();
      client := Some(built);
      lock := None;
      NothingCalled(s, p, Succeeds);
      Took(Act(p, Succeeds), s);
    }

    method DeleteByCurrent(p: Pid, src: Source, id: int, since: nat, k: Cached) returns (ok: bool)
      requires Valid() && At(p, Revoke(src, ByCurrent(id, since, k)))
      modifies this
      ensures Continues()
      ensures if ok then At(p, Revoke(src, Revoked(id))) else p !in procs
      ensures Sent(calls, |old(calls)|, Call(p, DeleteToken(k.client.auth, id), ok))
      ensures !ok ==> GaveUpSince(start, log, |old(log)|, p, id, Some(k))
    {
      hide Run; hide CallsOf; hide MayDelete; hide CredsStep; hide ByCreds; hide RotateStep; hide ByRotate;
      hide WriteStep; hide ByWrite; hide Start; hide GaveUpSince; hide Sent; hide Initial;
      Yield(p);
      var s := View();
      ghost var past, sent := log, calls;
      var reply;
      ok, reply := Delete(p, k.client.auth, id);
      SentLast(sent, |old(calls)|, Call(p, DeleteToken(k.client.auth, id), ok));
      Took(Act(p, DeleteReplied(reply)), s);
      if !ok { GaveUpNow(start, past, Act(p, DeleteReplied(reply)), |old(log)|, id, Some(k)); }
    }

    /** revokeToken: the snapshot credential first, the current configuration's client otherwise. False only if a
        DELETE of the token was sent with the snapshot credential, if there is one, and not confirmed, and getClient
        failed or a DELETE sent with the client it returned was not confirmed either. */
    method RevokeToken(p: Pid, src: Source, id: int, snapshot: Option<AapClient>)
        returns (ok: bool, ghost held: Option<Cached>)
      requires Valid() && At(p, Revoke(src, BySnapshot(id, snapshot)))
      modifies this
      ensures Continues()
      ensures if ok then At(p, Revoke(src, Revoked(id))) && id !in aap.live else p !in procs
      ensures !ok && snapshot.Some? ==> Sent(calls, |old(calls)|, Call(p, DeleteToken(snapshot.value.auth, id), false))
      ensures !ok ==> FellShort(start, log, |old(log)|, calls, |old(calls)|, p, id, held)
    {
      hide Run; hide CallsOf; hide Next; hide Inv; hide NewClient; hide View; hide Sent; hide FellShort; hide Initial;
      ghost var before, from := |log|, |calls|;
      var since;
      ok, since := TrySnapshot(p, src, id, snapshot);
      held := None;
      if !ok {
        ghost var tried, refused := log, calls;
        ok, held := FallBack(p, src, id, since);
        if !ok {
          if snapshot.Some? { SentStays(refused, calls, from, from, Call(p, DeleteToken(snapshot.value.auth, id), false)); }
          FellShortSince(start, log, |tried|, before, calls, |refused|, from, p, id, held);
        }
      }
      if ok { TokenIsGone(p); }
    }

    /** The fallback to the current configuration. */
    method FallBack(p: Pid, src: Source, id: int, since: nat) returns (ok: bool, ghost held: Option<Cached>)
      requires Valid() && At(p, Revoke(src, CheckCache(id, since)))
      modifies this
      ensures Continues()
      ensures if ok then At(p, Revoke(src, Revoked(id))) else p !in procs
      ensures !ok ==> FellShort(start, log, |old(log)|, calls, |old(calls)|, p, id, held)
    {
      hide Run; hide CallsOf; hide Next; hide Inv; hide NewClient; hide View; hide Sent; hide NoClient;
      hide GaveUpSince; hide Initial;
      var k := GetClient(p, src, id, since);
      held := k;
      if k.None? { return false, None; }
      ghost var got, sent := log, calls;
      ok := DeleteByCurrent(p, src, id, since, k.value);
      if !ok {
        SentStays(calls, calls, |sent|, |old(calls)|, Call(p, DeleteToken(k.value.client.auth, id), false));
        GaveUpEarlier(start, log, |got|, |old(log)|, p, id, held);
      }
    }

    /** The fallback failed: no client, or an unconfirmed DELETE with the one that getClient returned. */
    static ghost predicate FellShort(start: State, log: seq<Action>, before: nat, calls: seq<Call>, from: nat,
        p: Pid, id: int,
        held: Option<Cached>)
    {
      match held
      case None => NoClient(start, log, before, calls, from, p, id)
      case Some(k) =>
        Sent(calls, from, Call(p, DeleteToken(k.client.auth, id), false))
            && GaveUpSince(start, log, before, p, id, held)
    }

    static lemma FellShortSince(start: State, log: seq<Action>, before: nat, earlier: nat, calls: seq<Call>,
        from: nat, since: nat,
        p: Pid, id: int, held: Option<Cached>)
      requires earlier <= before && since <= from && FellShort(start, log, before, calls, from, p, id, held)
      ensures FellShort(start, log, earlier, calls, since, p, id, held)
    {
      hide Sent; hide NoClient; hide GaveUpSince;
      match held
      case None => NoClientSince(start, log, before, earlier, calls, from, since, p, id);
      case Some(k) =>
        SentStays(calls, calls, from, since, Call(p, DeleteToken(k.client.auth, id), false));
        GaveUpEarlier(start, log, before, earlier, p, id, held);
    }

    static lemma GaveUpShort(start: State, log: seq<Action>, before: nat, calls: seq<Call>, from: nat, p: Pid, id: int,
        held: Option<Cached>)
      requires FellShort(start, log, before, calls, from, p, id, held)
      ensures GaveUpSince(start, log, before, p, id, held)
    {
      hide Sent; hide GaveUpSince;
    }

    lemma TokenIsGone(p: Pid)
      requires Valid() && p in procs && procs[p].Revoke? && procs[p].r.Revoked?
      ensures procs[p].r.id !in aap.live
    {
      hide Run; hide CallsOf; hide NewClient; hide ServerOk; hide WalOk; hide LeasesOk; hide LedgerOk; hide LocksOk;
      hide CacheOk; hide RootOk;
      IsInv();
      assert ProcOk(View(), p, procs[p]);
    }

    /** Vault drops the lease or the WAL entry once its callback has returned nil. */
    method DropRecord(p: Pid, src: Source, id: int) returns (dropped: bool)
      requires Valid() && At(p, Revoke(src, Revoked(id)))
      modifies this
      ensures Continues() && p !in procs && id !in aap.live && (dropped ==> !Recorded(View(), src))
      ensures Sent(calls, |old(calls)|, Call(p, DiscardRecord(src), dropped))
    {
      hide Run; hide CallsOf; hide BySnapshotStep; hide CheckCacheStep; hide AwaitLockStep; hide LoadClientStep;
      hide StoreClientStep; hide ByCurrentStep; hide Called; hide Sent; hide CallFailed; hide CredsStep;
      hide RotateStep; hide WriteStep; hide Start;
      Yield(p);
      TokenIsGone(p);
      var s := View();
      ghost var sent := calls;
      dropped := Discard(p, src);
      SentLast(sent, |old(calls)|, Call(p, DiscardRecord(src), dropped));
      if src.FromWal? && src.w !in s.wal { assert s.wal - {src.w} == s.wal; }
      if src.FromLease? && src.l !in s.leases { assert s.leases - {src.l} == s.leases; }
      StorageCalled(s, p, DiscardRecord(src), dropped);
      Took(Act(p, if dropped then Succeeds else Fails), s);
    }

    /** tokenRevoke and walRollback, as Vault runs them: success only if the recorded token is dead, failure only if
        the recorded configuration's credential and the fallback were both tried in vain. While the engine runs
        steadily as a privileged identity, an attempt fails only if a rotation overtook its fallback. */
    method RevokeRecorded(p: Pid, src: Source) returns (r: RevokeResult)
      requires Valid() && p !in procs
      modifies this
      ensures Continues() && p !in procs
      ensures !r.NotRecorded? ==> Began(start, log, |old(log)|, p, Revoking(src)) && RecordHeld(start, log, src, r.id)
      ensures match r
              case NotRecorded => !Recorded(View(), src)
              case Failed(id) => exists c, held :: TriedInVain(src, id, c, held, p, |old(log)|, |old(calls)|)
              case Kept(id) => id !in aap.live && Sent(calls, |old(calls)|, Call(p, DiscardRecord(src), false))
              case Dropped(id) => id !in aap.live && !Recorded(View(), src)
      ensures forall i :: r.Failed? && Steady(start, log, |old(log)|, p, i) ==> OvertakenSince(start, log, |old(log)|, p, r.id)
    {
      hide Run; hide CallsOf; hide Next; hide Inv; hide Began; hide Recorded; hide GrantOf; hide RecordHeld; hide Sent;
      hide RecordHeldWith; hide FellShort; hide TriedInVain; hide Steady; hide OvertakenSince; hide NewClient;
      hide Initial; hide GaveUpSince;
      ghost var before, from := |log|, |calls|;
      var t := BeginRevocation(p, src);
      if t.None? { return NotRecorded; }
      ghost var past, begun := log, calls;
      RecordHolds(start, past, src);
      ghost var c := GrantOf(View(), src).config;
      var id := t.value.id;
      var ok; ghost var held;
      ok, held := RevokeToken(p, src, id, t.value.client);
      RecordHoldsWith(start, past, log, src);
      if ok {
        ghost var sent := calls;
        var dropped := DropRecord(p, src, id);
        SentStays(calls, calls, |sent|, from, Call(p, DiscardRecord(src), dropped));
        r := if dropped then Dropped(id) else Kept(id);
      } else {
        r := RevokeResult.Failed(id);
        SentStays(calls, calls, |begun|, from, Call(p, DeleteToken(NewClient(env, c).value.auth, id), false));
        FellShortSince(start, log, |past|, before, calls, |begun|, from, p, id, held);
        assert TriedInVain(src, id, c, held, p, before, from) by { IsInVain(src, id, c, held, p, before, from); }
        GaveUpShort(start, log, before, calls, from, p, id, held);
        forall i | Steady(start, log, before, p, i)
          ensures OvertakenSince(start, log, before, p, id)
        {
          GivingUpIsOvertaken(start, log, before, p, id, held, i);
        }
      }
      BeganStays(start, past, log, |old(log)|, p, Revoking(src));
      RecordHeldStays(start, past, log, src, id);
    }

    /** The record named this token and configuration; DELETEs of the token were sent with the recorded credential
        and, if there was a client, with the current one, and none was confirmed. */
    ghost predicate TriedInVain(src: Source, id: int, c: Config, held: Option<Cached>, p: Pid, before: nat, from: nat)
      reads this`start, this`log, this`calls
    {
      && RecordHeldWith(start, log, src, id, c) && NewClient(env, c).Ok?
      && Sent(calls, from, Call(p, DeleteToken(NewClient(env, c).value.auth, id), false))
      && FellShort(start, log, before, calls, from, p, id, held)
    }

    lemma IsInVain(src: Source, id: int, c: Config, held: Option<Cached>, p: Pid, before: nat, from: nat)
      requires RecordHeldWith(start, log, src, id, c) && NewClient(env, c).Ok?
      requires Sent(calls, from, Call(p, DeleteToken(NewClient(env, c).value.auth, id), false))
      requires FellShort(start, log, before, calls, from, p, id, held)
      ensures TriedInVain(src, id, c, held, p, before, from)
    {
      hide Run; hide Sent; hide FellShort; hide RecordHeldWith; hide NewClient;
    }

    // ----- creds/<role>

    method BeginMinting(p: Pid, name: string, role: Role)
      requires Valid() && p !in procs
      modifies this
      ensures Continues() && Began(start, log, |old(log)|, p, Minting(name, role))
          && At(p, Creds(ReadConfig(name, role)))
    {
      hide Run; hide CallsOf;
      Yield(p);
      var s := View();
      ghost var past := log;
      Took(Act(p, Begin(Minting(name, role))), s);
      JustBegan(start, past, |old(log)|, p, Minting(name, role));
    }

    method LoadMintConfig(p: Pid, name: string, role: Role) returns (q: Option<Request>)
      requires Valid() && At(p, Creds(ReadConfig(name, role)))
      modifies this
      ensures Continues()
      ensures match q
              case Some(r) =>
                At(p, Creds(AfterConfig(r))) && r == Request(name, role, r.config, 0, 0) && NewClient(env, r.config).Ok?
              case None => p !in procs && (CallFailed(calls, |old(calls)|, p) || UnusableSince(start, log, |old(log)|, false))
    {
      hide Run; hide CallsOf; hide Called; hide NewClient; hide RevokeStep; hide RotateStep; hide WriteStep; hide Start;
      hide AfterConfig; hide UnusableSince; hide Initial;
      Yield(p);
      SameEnv(start, log);
      var s := View();
      ghost var past, sent := log, calls;
      var readable := LoadStored(p);
      SentLast(sent, |old(calls)|, Call(p, GetConfig, readable));
      StorageCalled(s, p, GetConfig, readable);
      if !readable || config.None? || NewClient(env, config.value).Err? {
        if readable { UnusableNow(start, past, |old(log)|, false); }
        Took(Act(p, if readable then Succeeds else Fails), s);
        if readable { UnusableStays(start, past, log, |old(log)|, |old(log)|, false); }
        return None;
      }
      q := Some(Request(name, role, config.value, 0, 0));
      Took(Act(p, Succeeds), s);
    }

    /** ResolveApplicationID, for a role that names one. */
    method ResolveApplication(p: Pid, q: Request) returns (r: Option<Request>)
      requires Valid() && At(p, Creds(ResolveApp(q))) && NewClient(env, q.config).Ok?
      modifies this
      ensures Continues()
      ensures match r
              case Some(v) => At(p, Creds(AfterApp(v))) && v == q.(application := v.application)
              case None => p !in procs && CallFailed(calls, |old(calls)|, p)
    {
      hide Run; hide CallsOf; hide ResolveId; hide RevokeStep; hide ByRevoke; hide RotateStep; hide ByRotate;
      hide WriteStep; hide ByWrite; hide Start; hide AfterApp; hide NewClient;
      Yield(p);
      var s := View();
      ghost var sent := calls;
      var id, listing := Find(p, NewClient(env, q.config).value.auth, false, q.role.application);
      SentLast(sent, |old(calls)|, calls[|sent|]);
      Took(Act(p, if listing.Some? then Lookup(listing.value) else Fails), s);
      r := match id case Some(v) => Some(q.(application := v)) case None => None;
    }

    /** ResolveUserID, for a role that names one. */
    method ResolveOwner(p: Pid, q: Request) returns (r: Option<Request>)
      requires Valid() && At(p, Creds(ResolveUser(q))) && NewClient(env, q.config).Ok?
      modifies this
      ensures Continues()
      ensures match r
              case Some(v) => At(p, Creds(Protocol.Mint(v))) && v == q.(user := v.user)
              case None => p !in procs && CallFailed(calls, |old(calls)|, p)
    {
      hide Run; hide CallsOf; hide ResolveId; hide RevokeStep; hide ByRevoke; hide RotateStep; hide ByRotate;
      hide WriteStep; hide ByWrite; hide Start; hide AfterApp; hide NewClient;
      Yield(p);
      var s := View();
      ghost var sent := calls;
      var id, listing := Find(p, NewClient(env, q.config).value.auth, true, q.role.username);
      SentLast(sent, |old(calls)|, calls[|sent|]);
      Took(Act(p, if listing.Some? then Lookup(listing.value) else Fails), s);
      r := match id case Some(v) => Some(q.(user := v)) case None => None;
    }

    /** A fresh request marker, unless generating one fails. */
    method NewRequestId(p: Pid) returns (id: Option<string>)
      modifies `calls
      ensures id.Some? ==> IsRequestId(id.value) && id.value !in markers
      ensures calls == old(calls) + if id.Some? then [] else [Call(p, DrawMarker, false)]
    {
      var text: string := *;
      id := if IsRequestId(text) && text !in markers then Some(text) else None;
      if id.None? { calls := calls + [Call(p, DrawMarker, false)]; }
    }

    /** A mint was asked for and answered: with the request's credential, for the role's scope, under a description
        that tells its texts, and bound to the application it was given. */
    static ghost predicate AskedFor(env: Env, calls: seq<Call>, from: nat, p: Pid, q: Request) {
      NewClient(env, q.config).Ok? && exists requestId :: Sent(calls, from, MintCall(env, p, q, requestId))
    }

    static function MintCall(env: Env, p: Pid, q: Request, requestId: string): Call
      requires NewClient(env, q.config).Ok?
    {
      var description := MintDescription(q.config.tokenDescriptionPrefix, q.role.description, requestId);
      Call(p, PostToken(MintAuth(env, q), q.role.scope, description, q.application), true)
    }

    static lemma Asked(env: Env, calls: seq<Call>, from: nat, p: Pid, q: Request, requestId: string)
      requires NewClient(env, q.config).Ok? && Sent(calls, from, MintCall(env, p, q, requestId))
      ensures AskedFor(env, calls, from, p, q)
    {
      hide NewClient; hide Sent;
    }

    static lemma AskedStays(env: Env, past: seq<Call>, calls: seq<Call>, before: nat, from: nat, p: Pid, q: Request)
      requires past <= calls && from <= before && AskedFor(env, past, before, p, q)
      ensures AskedFor(env, calls, from, p, q)
    {
      hide NewClient; hide Sent;
      var requestId :| Sent(past, before, MintCall(env, p, q, requestId));
      SentStays(past, calls, before, from, MintCall(env, p, q, requestId));
    }

    /** createTokenForAppRecovering, up to the sweep. */
    method MintToken(p: Pid, q: Request) returns (minted: MintOutcome, requestId: string, ghost token: Option<int>)
      requires Valid() && At(p, Creds(Protocol.Mint(q))) && NewClient(env, q.config).Ok?
      modifies this
      ensures Continues()
      ensures match minted
              case Minted(id, _) => At(p, Creds(PutWal(q, id)))
              case Rejected => p !in procs
              case NoAnswer =>
                At(p, Creds(SweepList(MintAuth(env, q), MintDescription(q.config.tokenDescriptionPrefix,
                    q.role.description, requestId), requestId, token)))
      ensures if minted.Minted? then minted.id !in old(aap.tokens) && AskedFor(env, calls, |old(calls)|, p, q)
              else CallFailed(calls, |old(calls)|, p)
    {
      hide Run; hide CallsOf; hide Next; hide KeepsTokens; hide Called; hide Sent; hide CallFailed; hide NewClient;
      hide MintAuth; hide MintDescription; hide Creates;
      hide Aap.Post; hide Inv;
      Yield(p);
      IsInv();
      IdsArePositive(View());
      PastIsKept(start, old(log), log);
      var s := View();
      ghost var sent := calls;
      var id := NewRequestId(p);
      minted, requestId, token := Rejected, "", None;
      if id.None? {
        MintStops(s, p);
        MarkerCalled(s, p);
        SentLast(sent, |old(calls)|, Call(p, DrawMarker, false));
        Took(Act(p, Fails), s);
        return;
      }
      requestId := id.value;
      var reply;
      var description := MintDescription(q.config.tokenDescriptionPrefix, q.role.description, requestId);
      minted, reply := Post(p, MintAuth(env, q), q.role.scope, description, q.application, Some(requestId));
      SentLast(sent, |old(calls)|, calls[|sent|]);
      token := if Creates(s.aap, MintAuth(env, q), reply) then Some(s.aap.nextId) else None;
      MintEnds(s, p, q, reply, requestId);
      MintCalled(s, p, q, reply, requestId);
      Took(Act(p, PostReplied(reply, requestId)), s);
      if minted.Minted? { Asked(env, calls, |old(calls)|, p, q, requestId); }
    }

    /** None if the listing failed. */
    method ListDescribed(p: Pid, auth: Auth, description: string, marker: string, ghost token: Option<int>)
        returns (ids: Option<seq<int>>)
      requires Valid() && At(p, Creds(SweepList(auth, description, marker, token)))
      modifies this
      ensures Continues()
      ensures match ids
              case None => p !in procs && Lost(token, SweepFailed) && CallFailed(calls, |old(calls)|, p)
              case Some(found) =>
                ShownIn(log, |old(log)|, p, description, found) &&
                if found == [] then p !in procs && Lost(token, SweepMissed) else At(p, Creds(SweepDelete(auth, found, token)))
    {
      hide Run; hide CallsOf; hide Next; hide Called; hide Works; hide Truthful; hide IdsWithDescription; hide ByRevoke;
      hide ByRotate; hide ByWrite;
      Yield(p);
      var s := View();
      ghost var sent := calls;
      var rows := ListTokens(p, auth);
      SentLast(sent, |old(calls)|, Call(p, GetTokens(auth), rows.Some?));
      ListCalled(s, p, rows);
      ListEnds(s, p, auth, description, marker, token, rows.GetOr([]));
      if rows.None? {
        Took(Act(p, Fails), s);
        return None;
      }
      var found := TokenIdsByDescription(rows.value, description);
      ghost var past := log;
      Took(Act(p, Listing(rows.value)), s);
      ShownNow(past, |old(log)|, p, description, rows.value);
      ids := Some(found);
    }

    /** If the ambiguous mint did create a token and it is still live, it is reported lost for this cause. */
    ghost predicate Lost(token: Option<int>, cause: Cause)
      reads this
    {
      token.Some? && token.value in aap.live ==> token.value in ledger && ledger[token.value] == Orphan(cause)
    }

    method DeleteSwept(p: Pid, auth: Auth, ids: seq<int>, ghost token: Option<int>) returns (ok: bool)
      requires Valid() && ids != [] && At(p, Creds(SweepDelete(auth, ids, token)))
      modifies this
      ensures Continues()
      ensures if ok && |ids| > 1 then At(p, Creds(SweepDelete(auth, ids[1..], token)))
              else p !in procs && Lost(token, if ok then SweepMissed else SweepFailed)
      ensures Sent(calls, |old(calls)|, Call(p, DeleteToken(auth, ids[0]), ok))
    {
      hide Run; hide CallsOf; hide ReadConfigStep; hide ResolveAppStep; hide ResolveUserStep; hide AwaitMintStep;
      hide SweepListStep; hide PutWalStep; hide DropUnloggedStep; hide GuardAppStep; hide GuardUserStep;
      hide CheckContextStep; hide UndoStep; hide UndoWalStep; hide CommitStep; hide UndoCommitStep; hide RespondStep;
      hide MayDelete; hide RevokeStep; hide ByRevoke; hide RotateStep; hide ByRotate; hide WriteStep; hide ByWrite;
      hide Start;
      Yield(p);
      var s := View();
      ghost var sent := calls;
      var reply;
      ok, reply := Delete(p, auth, ids[0]);
      SentLast(sent, |old(calls)|, Call(p, DeleteToken(auth, ids[0]), ok));
      Took(Act(p, DeleteReplied(reply)), s);
    }

    /** A listing that p was answered with showed exactly these ids under this description. */
    static ghost predicate ShownIn(log: seq<Action>, before: nat, p: Pid, description: string, ids: seq<int>) {
      exists k, rows :: before <= k < |log| && log[k] == Act(p, Listing(rows)) && ids == IdsWithDescription(rows, description)
    }

    static lemma ShownNow(past: seq<Action>, before: nat, p: Pid, description: string, rows: seq<Row>)
      requires before <= |past|
      ensures ShownIn(past + [Act(p, Listing(rows))], before, p, description, IdsWithDescription(rows, description))
    {
      hide IdsWithDescription;
      var log := past + [Act(p, Listing(rows))];
      assert log[|past|] == Act(p, Listing(rows));
    }

    static lemma ShownStays(past: seq<Action>, log: seq<Action>, before: nat, p: Pid, description: string,
        ids: seq<int>)
      requires past <= log && ShownIn(past, before, p, description, ids)
      ensures ShownIn(log, before, p, description, ids)
    {
      hide IdsWithDescription;
      var k, rows :| before <= k < |past| && past[k] == Act(p, Listing(rows))
          && ids == IdsWithDescription(rows, description);
      assert log[k] == past[k];
    }

    /** revokeTokensByDescription, with everything else going on: true only if every id that the listing showed under
        this description had its DELETE confirmed, so that the token, if there is one, is dead or was not shown; false
        only if a call failed. */
    method Sweep(p: Pid, auth: Auth, description: string, marker: string, ghost token: Option<int>)
        returns (ok: bool, ghost found: seq<int>)
      requires Valid() && At(p, Creds(SweepList(auth, description, marker, token)))
      modifies this
      ensures Continues() && p !in procs && Lost(token, if ok then SweepMissed else SweepFailed)
      ensures if ok then
                && ShownIn(log, |old(log)|, p, description, found)
                && forall id :: id in found ==> Sent(calls, |old(calls)|, Call(p, DeleteToken(auth, id), true))
              else CallFailed(calls, |old(calls)|, p)
    {
      hide Run; hide CallsOf; hide Next; hide View; hide Lost; hide Sent; hide CallFailed; hide ShownIn;
      ghost var from := |calls|;
      var listed := ListDescribed(p, auth, description, marker, token);
      found := [];
      if listed.None? { return false, []; }
      var ids := listed.value;
      found := ids;
      ghost var shown := log;
      while ids != []
        invariant Valid() && start == old(start) && old(log) <= log && old(calls) <= calls
        invariant if ids == [] then p !in procs && Lost(token, SweepMissed) else At(p, Creds(SweepDelete(auth, ids, token)))
        invariant shown <= log
        invariant forall id :: id in found ==> id in ids || Sent(calls, from, Call(p, DeleteToken(auth, id), true))
      {
        ghost var sent := calls;
        ok := DeleteSwept(p, auth, ids, token);
        SentStays(calls, calls, |sent|, from, Call(p, DeleteToken(auth, ids[0]), ok));
        if !ok { SentFailed(calls, from, Call(p, DeleteToken(auth, ids[0]), false)); return; }
        forall id | id in found && id !in ids[1..]
          ensures Sent(calls, from, Call(p, DeleteToken(auth, id), true))
        {
          if id in ids { assert id == ids[0]; } else { SentStays(sent, calls, from, from, Call(p, DeleteToken(auth, id), true)); }
        }
        ids := ids[1..];
      }
      ok := true;
      ShownStays(shown, log, |old(log)|, p, description, found);
    }

    /** PutWAL. */
    method RecordMinted(p: Pid, q: Request, id: int) returns (w: Option<nat>)
      requires Valid() && At(p, Creds(PutWal(q, id)))
      modifies this
      ensures Continues()
      ensures match w
              case Some(v) => At(p, Creds(AfterWal(q, id, v))) && v in wal && wal[v] == Grant(id, q.name, q.config)
              case None => At(p, Creds(DropUnlogged(q, id)))
      ensures Sent(calls, |old(calls)|, Call(p, AppendWal(Grant(id, q.name, q.config)), w.Some?))
    {
      hide Run; hide CallsOf; hide ReadConfigStep; hide ResolveAppStep; hide ResolveUserStep; hide AwaitMintStep;
      hide SweepListStep; hide SweepDeleteStep; hide DropUnloggedStep; hide GuardAppStep; hide GuardUserStep;
      hide CheckContextStep; hide UndoStep; hide UndoWalStep; hide CommitStep; hide UndoCommitStep; hide RespondStep;
      hide Called; hide AfterWal; hide RevokeStep; hide RotateStep; hide WriteStep; hide Start;
      Yield(p);
      var s := View();
      ghost var sent := calls;
      w := AppendEntry(p, Grant(id, q.name, q.config));
      SentLast(sent, |old(calls)|, Call(p, AppendWal(Grant(id, q.name, q.config)), w.Some?));
      StorageCalled(s, p, AppendWal(Grant(id, q.name, q.config)), w.Some?);
      Took(Act(p, if w.Some? then Succeeds else Fails), s);
    }

    /** revokeBestEffort, without a WAL entry and with one that could not be deleted: one DELETE is sent with the
        credential that minted; it is confirmed only if the token is dead, and fails, with AAP answering a privileged
        engine, only if that credential is a root token revoked since. */
    method RevokeBestEffort(p: Pid, q: Request, id: int) returns (ghost gone: bool)
      requires Valid() && p in procs && NewClient(env, q.config).Ok?
      requires procs[p] == Creds(DropUnlogged(q, id)) || (procs[p].Creds? && procs[p].c.UndoCommit?
          && procs[p].c.q == q && procs[p].c.id == id)
      modifies this
      ensures Continues() && p !in procs && (gone ==> id !in aap.live)
      ensures Sent(calls, |old(calls)|, Call(p, DeleteToken(NewClient(env, q.config).value.auth, id), gone))
      ensures forall i :: SteadyMint(start, log, |old(log)|, p, i) ==> gone || DeadRoot(aap, q.config)
    {
      hide Run; hide CallsOf; hide Called; hide NewClient; hide MayDelete; hide RevokeStep; hide RotateStep;
      hide WriteStep; hide Start; hide Sent; hide SteadyMint; hide Initial;
      Yield(p);
      var s := View();
      ghost var past, sent := log, calls;
      var confirmed, reply := Delete(p, NewClient(env, q.config).value.auth, id);
      gone := confirmed;
      DeleteCalled(s, p, q.config, id, reply);
      Took(Act(p, DeleteReplied(reply)), s);
      SentLast(sent, |old(calls)|, Call(p, DeleteToken(NewClient(env, q.config).value.auth, id), gone));
      forall i | SteadyMint(start, log, |old(log)|, p, i)
        ensures gone || DeadRoot(aap, q.config)
      {
        MintCleanupFails(start, past, |old(log)|, p, i, q, id, reply);
      }
    }

    /** tokenApplication read back and compared. */
    method CheckApplication(p: Pid, q: Request, id: int, w: nat) returns (ok: bool)
      requires Valid() && At(p, Creds(GuardApp(q, id, w))) && NewClient(env, q.config).Ok?
      modifies this
      ensures Continues()
      ensures At(p, Creds(if ok then AfterGuardApp(q, id, w) else Undo(q, id, w)))
      ensures !ok ==> CallFailed(calls, |old(calls)|, p) || (id in aap.tokens && aap.tokens[id].application != q.application)
    {
      hide Run; hide CallsOf; hide NewClient; hide Works; hide AfterGuardApp; hide RevokeStep; hide ByRevoke;
      hide RotateStep; hide ByRotate; hide WriteStep; hide ByWrite; hide Start;
      Yield(p);
      var s := View();
      ghost var sent := calls;
      var token, answered := ReadToken(p, NewClient(env, q.config).value.auth, id);
      SentLast(sent, |old(calls)|, Call(p, GetToken(NewClient(env, q.config).value.auth, id), token.Some?));
      ok := token.Some? && token.value.application == q.application;
      Took(Act(p, if answered then Succeeds else Fails), s);
    }

    /** tokenOwner read back and compared. */
    method CheckOwner(p: Pid, q: Request, id: int, w: nat) returns (ok: bool)
      requires Valid() && At(p, Creds(GuardUser(q, id, w))) && NewClient(env, q.config).Ok?
      modifies this
      ensures Continues()
      ensures At(p, Creds(if ok then CheckContext(q, id, w) else Undo(q, id, w)))
      ensures !ok ==> CallFailed(calls, |old(calls)|, p) || (id in aap.tokens && aap.tokens[id].owner != q.user)
    {
      hide Run; hide CallsOf; hide NewClient; hide Works; hide RevokeStep; hide ByRevoke; hide RotateStep;
      hide ByRotate; hide WriteStep; hide ByWrite; hide Start;
      Yield(p);
      var s := View();
      ghost var sent := calls;
      var token, answered := ReadToken(p, NewClient(env, q.config).value.auth, id);
      SentLast(sent, |old(calls)|, Call(p, GetToken(NewClient(env, q.config).value.auth, id), token.Some?));
      ok := token.Some? && token.value.owner == q.user;
      Took(Act(p, if answered then Succeeds else Fails), s);
    }

    /** revokeMintedTokenAfterVerificationFailure: one DELETE is sent with the credential that minted. Once it is
        confirmed the token is dead, and its WAL entry goes unless deleting it fails; until then the entry stays. With
        AAP answering a privileged engine it fails only if that credential is a root token revoked since. */
    method UndoMint(p: Pid, q: Request, id: int, w: nat) returns (ghost gone: bool)
      requires Valid() && At(p, Creds(Undo(q, id, w))) && NewClient(env, q.config).Ok?
      modifies this
      ensures Continues() && p !in procs && GivenUp(id, w)
      ensures Sent(calls, |old(calls)|, Call(p, DeleteToken(NewClient(env, q.config).value.auth, id), gone))
      ensures gone ==> id !in aap.live && (w !in wal || Sent(calls, |old(calls)|, Call(p, EraseWal(w), false)))
      ensures forall i :: SteadyMint(start, log, |old(log)|, p, i) ==> gone || DeadRoot(aap, q.config)
    {
      hide Run; hide CallsOf; hide Next; hide Called; hide Sent; hide CallFailed; hide Inv; hide NewClient;
      hide MayDelete; hide SteadyMint; hide Initial;
      Yield(p);
      var s := View();
      ghost var past, sent := log, calls;
      var confirmed, reply := Delete(p, NewClient(env, q.config).value.auth, id);
      gone := confirmed;
      SentLast(sent, |old(calls)|, Call(p, DeleteToken(NewClient(env, q.config).value.auth, id), gone));
      ghost var deleted := calls;
      MintStaysCovered(start, log, s, p, DeleteReplied(reply));
      UndoEnds(s, p, q, id, w, reply);
      DeleteCalled(s, p, q.config, id, reply);
      Took(Act(p, DeleteReplied(reply)), s);
      if confirmed {
        var ok := DropUndone(p, q, id, w);
        SentStays(deleted, calls, |old(calls)|, |old(calls)|, Call(p, DeleteToken(NewClient(env,
            q.config).value.auth, id), true));
        SentStays(calls, calls, |deleted|, |old(calls)|, Call(p, EraseWal(w), ok));
      } else {
        forall i | SteadyMint(start, log, |old(log)|, p, i)
          ensures DeadRoot(aap, q.config)
        {
          MintCleanupFails(start, past, |old(log)|, p, i, q, id, reply);
        }
      }
    }

    method DropUndone(p: Pid, q: Request, id: int, w: nat) returns (ok: bool)
      requires Valid() && At(p, Creds(UndoWal(q, id, w)))
      modifies this
      ensures Continues() && p !in procs && GivenUp(id, w)
      ensures id !in aap.live && (ok ==> w !in wal) && Sent(calls, |old(calls)|, Call(p, EraseWal(w), ok))
    {
      hide Run; hide CallsOf; hide ReadConfigStep; hide ResolveAppStep; hide ResolveUserStep; hide AwaitMintStep;
      hide SweepListStep; hide SweepDeleteStep; hide PutWalStep; hide DropUnloggedStep; hide GuardAppStep;
      hide GuardUserStep; hide CheckContextStep; hide UndoStep; hide CommitStep; hide UndoCommitStep; hide RespondStep;
      hide Called; hide Inv; hide RevokeStep; hide RotateStep; hide WriteStep; hide Start; hide Sent;
      Yield(p);
      IsInv();
      Refusals.UnderWalBuilds(View(), p);
      var s := View();
      ghost var sent := calls;
      ok := EraseEntry(p, w);
      SentLast(sent, |old(calls)|, Call(p, EraseWal(w), ok));
      MintStaysCovered(start, log, s, p, if ok then Succeeds else Fails);
      StorageCalled(s, p, EraseWal(w), ok);
      Took(Act(p, if ok then Succeeds else Fails), s);
    }

    /** No lease names the token, and while it lives this WAL entry does. */
    predicate GivenUp(id: int, w: nat)
      reads this
    {
      (forall l :: l in leases ==> leases[l].grant.id != id) && (id in aap.live ==> w in wal && wal[w].id == id)
    }

    static lemma MintStaysCovered(start: State, log: seq<Action>, s: State, p: Pid, e: Event)
      requires Initial(start) && s == Run(start, log) && p in s.procs && s.procs[p].Creds? && MayRefuse(s.procs[p].c)
      ensures var t := Next(s, Act(p, e));
              var c := s.procs[p].c;
              && (forall l :: l in t.leases ==> t.leases[l].grant.id != c.id)
              && (c.id in t.aap.live ==> c.w in t.wal && t.wal[c.w].id == c.id)
    {
      hide Run; hide CallsOf; hide Next; hide Inv;
      assert Reachable(s);
      RefusedMintIsCovered(s, p, e);
    }

    /** The caller may have gone away meanwhile. */
    method CheckCaller(p: Pid, q: Request, id: int, w: nat) returns (waiting: bool)
      requires Valid() && At(p, Creds(CheckContext(q, id, w)))
      modifies this
      ensures Continues()
      ensures At(p, Creds(if waiting then Commit(q, id, w) else Undo(q, id, w)))
      ensures Sent(calls, |old(calls)|, Call(p, PollCaller, waiting))
    {
      hide Run; hide CallsOf; hide RevokeStep; hide ByRevoke; hide RotateStep; hide ByRotate; hide WriteStep;
      hide ByWrite; hide Start;
      Yield(p);
      var s := View();
      ghost var sent := calls;
      waiting := CallerWaits(p);
      SentLast(sent, |old(calls)|, Call(p, PollCaller, waiting));
      Took(Act(p, if waiting then Succeeds else Cancel), s);
    }

    /** DeleteWAL: from here on the lease answers for the token. */
    method CommitMint(p: Pid, q: Request, id: int, w: nat) returns (ok: bool)
      requires Valid() && At(p, Creds(Commit(q, id, w)))
      modifies this
      ensures Continues()
      ensures At(p, Creds(if ok then Respond(LeaseFor(q, id)) else UndoCommit(q, id, w)))
      ensures Sent(calls, |old(calls)|, Call(p, EraseWal(w), ok))
    {
      hide Run; hide CallsOf; hide ReadConfigStep; hide ResolveAppStep; hide ResolveUserStep; hide AwaitMintStep;
      hide SweepListStep; hide SweepDeleteStep; hide PutWalStep; hide DropUnloggedStep; hide GuardAppStep;
      hide GuardUserStep; hide CheckContextStep; hide UndoStep; hide UndoWalStep; hide UndoCommitStep; hide RespondStep;
      hide Called; hide RevokeStep; hide RotateStep; hide WriteStep; hide Start;
      Yield(p);
      var s := View();
      ghost var sent := calls;
      ok := EraseEntry(p, w);
      SentLast(sent, |old(calls)|, Call(p, EraseWal(w), ok));
      StorageCalled(s, p, EraseWal(w), ok);
      Took(Act(p, if ok then Succeeds else Fails), s);
    }

    static function LeaseFor(q: Request, id: int): Lease {
      Lease(Grant(id, q.name, q.config), q.role.ttl, q.role.maxTtl, q)
    }

    /** Vault registers the lease that the response carries. */
    method RegisterLease(p: Pid, lease: Lease) returns (l: nat)
      requires Valid() && At(p, Creds(Respond(lease)))
      modifies this
      ensures Continues() && p !in procs && l in leases && leases[l] == lease && old(nextLease) <= l
    {
      hide Run; hide CallsOf; hide KeepsTokens; hide Called; hide Initial; hide RevokeStep; hide RotateStep;
      hide WriteStep; hide Start;
      Yield(p);
      PastIsKept(start, old(log), log);
      var s := View();
      l := nextLease;
      leases := leases[nextLease := lease];
      nextLease := nextLease + 1;
      NothingCalled(s, p, Succeeds);
      Took(Act(p, Succeeds), s);
    }

    /** Resolves the names a role asks for. */
    method ResolveNames(p: Pid, q: Request) returns (r: Option<Request>)
      requires Valid() && At(p, Creds(AfterConfig(q))) && NewClient(env, q.config).Ok?
      modifies this
      ensures Continues()
      ensures match r
              case Some(v) => At(p, Creds(Protocol.Mint(v))) && v == q.(application := v.application, user := v.user)
              case None => p !in procs && CallFailed(calls, |old(calls)|, p)
    {
      hide Run; hide CallsOf; hide Next; hide View; hide NewClient; hide CallFailed;
      r := Some(q);
      if q.role.application != "" {
        r := ResolveApplication(p, q);
        if r.None? { return; }
      }
      ghost var sent := calls;
      if q.role.username != "" {
        r := ResolveOwner(p, r.value);
        if r.None? { FailedStays(calls, calls, |sent|, |old(calls)|, p); }
      }
    }

    /** Mints, and sweeps if no answer came. */
    method MintOrSweep(p: Pid, q: Request) returns (id: Option<int>)
      requires Valid() && At(p, Creds(Protocol.Mint(q))) && NewClient(env, q.config).Ok?
      modifies this
      ensures Continues()
      ensures match id
              case Some(i) =>
                At(p, Creds(PutWal(q, i))) && i !in old(aap.tokens) && AskedFor(env, calls, |old(calls)|, p, q)
              case None => p !in procs && CallFailed(calls, |old(calls)|, p)
    {
      hide Run; hide CallsOf; hide Next; hide View; hide NewClient; hide MintDescription; hide MintAuth;
      hide CallFailed; hide Sent; hide AskedFor;
      var minted, requestId; ghost var token;
      minted, requestId, token := MintToken(p, q);
      ghost var sent := calls;
      match minted {
        case Minted(i, _) => id := Some(i);
        case Rejected => id := None;
        case NoAnswer =>
          var _, _ := Sweep(p, MintAuth(env, q), MintDescription(q.config.tokenDescriptionPrefix, q.role.description,
              requestId), requestId, token);
          FailedStays(sent, calls, |old(calls)|, |old(calls)|, p);
          id := None;
      }
    }

    /** AAP shows the token with another application or owner than the request was given. */
    predicate Mismatched(q: Request, id: int)
      reads this`aap
    {
      && id in aap.tokens
      && ((q.application > 0 && aap.tokens[id].application != q.application)
          || (q.role.username != "" && aap.tokens[id].owner != q.user))
    }

    /** The DELETE of a refused token was sent with the credential that minted, and what it was told came true. */
    ghost predicate Undone(p: Pid, q: Request, id: int, w: nat, from: nat)
      reads this`aap, this`wal, this`calls
    {
      NewClient(env, q.config).Ok? && exists gone: bool ::
        && Sent(calls, from, Call(p, DeleteToken(NewClient(env, q.config).value.auth, id), gone))
        && (gone ==> id !in aap.live && (w !in wal || Sent(calls, from, Call(p, EraseWal(w), false))))
    }

    lemma UndoneSince(p: Pid, q: Request, id: int, w: nat, before: nat, from: nat, gone: bool)
      requires from <= before && NewClient(env, q.config).Ok?
      requires Sent(calls, before, Call(p, DeleteToken(NewClient(env, q.config).value.auth, id), gone))
      requires gone ==> id !in aap.live && (w !in wal || Sent(calls, before, Call(p, EraseWal(w), false)))
      ensures Undone(p, q, id, w, from)
    {
      hide NewClient; hide Sent;
      SentStays(calls, calls, before, from, Call(p, DeleteToken(NewClient(env, q.config).value.auth, id), gone));
      if Sent(calls, before, Call(p, EraseWal(w), false)) { SentStays(calls, calls, before, from, Call(p, EraseWal(w), false)); }
    }

    lemma UndoneEarlier(p: Pid, q: Request, id: int, w: nat, before: nat, from: nat)
      requires from <= before && Undone(p, q, id, w, before)
      ensures Undone(p, q, id, w, from)
    {
      hide NewClient; hide Sent;
      var gone: bool :| Sent(calls, before, Call(p, DeleteToken(NewClient(env, q.config).value.auth, id), gone))
        && (gone ==> id !in aap.live && (w !in wal || Sent(calls, before, Call(p, EraseWal(w), false))));
      UndoneSince(p, q, id, w, before, from, gone);
    }

    /** The application and ownership guards, each undoing the mint if it fails. One fails only if its call did, or if
        AAP shows another application or owner. */
    method Guard(p: Pid, q: Request, id: int, w: nat) returns (ok: bool)
      requires Valid() && At(p, Creds(AfterWal(q, id, w))) && NewClient(env, q.config).Ok?
      modifies this
      ensures Continues()
      ensures if ok then At(p, Creds(CheckContext(q, id, w)))
              else p !in procs && Undone(p, q, id, w, |old(calls)|)
      ensures !ok ==> CallFailed(calls, |old(calls)|, p) || Mismatched(q, id)
    {
      hide Run; hide CallsOf; hide Next; hide NewClient; hide Sent; hide CallFailed; hide SteadyMint; hide Undone;
      hide Initial;
      ok := true;
      ghost var from := |calls|;
      if q.application > 0 {
        ok := CheckApplication(p, q, id, w);
        if !ok { RefuseMint(p, q, id, w, from); return; }
      }
      if q.role.username != "" {
        ghost var sent := calls;
        ok := CheckOwner(p, q, id, w);
        if !ok {
          if CallFailed(calls, |sent|, p) { FailedStays(calls, calls, |sent|, from, p); }
          RefuseMint(p, q, id, w, from);
        }
      }
    }

    method RefuseMint(p: Pid, q: Request, id: int, w: nat, ghost from: nat)
      requires Valid() && At(p, Creds(Undo(q, id, w))) && NewClient(env, q.config).Ok? && from <= |calls|
      requires CallFailed(calls, from, p) || Mismatched(q, id)
      modifies this
      ensures Continues() && p !in procs && Undone(p, q, id, w, from) && (CallFailed(calls, from, p)
          || Mismatched(q, id))
    {
      hide Run; hide CallsOf; hide Next; hide NewClient; hide Sent; hide CallFailed; hide SteadyMint; hide Undone;
      hide Initial;
      ghost var past, sent := log, calls;
      ghost var gone := UndoMint(p, q, id, w);
      UndoneSince(p, q, id, w, |sent|, from, gone);
      if CallFailed(sent, from, p) { FailedStays(sent, calls, from, from, p); }
      PastIsKept(start, past, log);
    }

    /** A mint of this call was refused for what AAP shows of its token, and undone. */
    ghost predicate Refused(p: Pid, name: string, role: Role, q: Request, id: int, w: nat, from: nat)
      reads this`start, this`log, this`aap, this`wal, this`calls
    {
      && q.name == name && q.role == role && Resolved(start, log, q) && Mismatched(q, id)
      && Undone(p, q, id, w, from)
    }

    /** createToken. A token that it returns was minted by this call for the names it resolved, is tagged with the
        configured prefix and the role's description, and is named by the WAL entry returned with it, or already rolled
        back through that entry. It returns none only if one of its calls failed, no client could be built from the
        stored configuration, or AAP shows the new token with another owner or application; then it is undone. */
    method CreateToken(p: Pid, name: string, role: Role) returns (m: Option<(Request, int, nat)>)
      requires Valid() && At(p, Creds(ReadConfig(name, role)))
      modifies this
      ensures Continues()
      ensures match m
              case Some((q, id, w)) =>
                && At(p, Creds(CheckContext(q, id, w))) && q.name == name && q.role == role
                    && NewClient(env, q.config).Ok?
                && id !in old(aap.tokens) && id in aap.tokens && AskedFor(env, calls, |old(calls)|, p, q)
                && Resolved(start, log, q) && Tagged(aap, q, id) && Bound(aap, q, id) && Owned(aap, q, id)
                && (if w in wal then wal[w].id == id else id !in aap.live)
              case None =>
                && p !in procs
                && (|| CallFailed(calls, |old(calls)|, p) || UnusableSince(start, log, |old(log)|, false)
                    || exists q, id, w :: id !in old(aap.tokens) && Refused(p, name, role, q, id, w, |old(calls)|))
    {
      hide Run; hide CallsOf; hide Next; hide NewClient; hide AfterConfig; hide AfterWal; hide Initial; hide CallFailed;
      hide UnusableSince; hide Refused; hide Undone; hide Sent; hide Resolved; hide Tagged; hide Bound; hide Owned;
      hide SteadyMint; hide AskedFor;
      ghost var before, from := |log|, |calls|;
      var loaded := LoadMintConfig(p, name, role);
      if loaded.None? { return None; }
      ghost var read := calls;
      var resolved := ResolveNames(p, loaded.value);
      if resolved.None? { FailedStays(calls, calls, |read|, from, p); return None; }
      var q := resolved.value;
      PastIsKept(start, old(log), log);
      ResolvedAtMint(p);
      ghost var past, sent := log, calls;
      m := MintAndGuard(p, q);
      if m.Some? {
        IsRecorded(p);
        HasPassed(p);
        AskedStays(env, calls, calls, |sent|, from, p, q);
      } else if CallFailed(calls, |sent|, p) {
        FailedStays(calls, calls, |sent|, from, p);
      } else {
        ResolvedOn(start, past, log, q);
        WasRefused(p, name, role, q, |sent|, from, old(aap.tokens).Keys);
      }
    }

    lemma WasRefused(p: Pid, name: string, role: Role, q: Request, sent: nat, from: nat, known: set<int>)
      requires from <= sent && q.name == name && q.role == role && Resolved(start, log, q)
      requires exists id, w :: id !in known && Mismatched(q, id) && Undone(p, q, id, w, sent)
      ensures exists r, id, w :: id !in known && Refused(p, name, role, r, id, w, from)
    {
      hide Run; hide Undone; hide Resolved; hide Mismatched;
      var id, w :| id !in known && Mismatched(q, id) && Undone(p, q, id, w, sent);
      UndoneEarlier(p, q, id, w, sent, from);
      assert Refused(p, name, role, q, id, w, from);
    }

    /** From the mint through the WAL entry and the guards. */
    method MintAndGuard(p: Pid, q: Request) returns (m: Option<(Request, int, nat)>)
      requires Valid() && At(p, Creds(Protocol.Mint(q))) && NewClient(env, q.config).Ok?
      modifies this
      ensures Continues()
      ensures match m
              case Some((r, id, w)) =>
                && r == q && At(p, Creds(CheckContext(q, id, w))) && id !in old(aap.tokens)
                && AskedFor(env, calls, |old(calls)|, p, q)
              case None =>
                && p !in procs
                && (|| CallFailed(calls, |old(calls)|, p)
                    || exists id, w :: id !in old(aap.tokens) && Mismatched(q, id) && Undone(p, q, id, w, |old(calls)|))
    {
      hide Run; hide CallsOf; hide Next; hide NewClient; hide AfterWal; hide Initial; hide CallFailed; hide Undone;
      hide Sent; hide Mismatched; hide SteadyMint; hide AskedFor;
      ghost var from := |calls|;
      var id := MintOrSweep(p, q);
      if id.None? { return None; }
      ghost var minted := calls;
      var w := RecordMinted(p, q, id.value);
      if w.None? {
        SentFailed(calls, |minted|, Call(p, AppendWal(Grant(id.value, q.name, q.config)), false));
        FailedStays(calls, calls, |minted|, from, p);
        ghost var failed := calls;
        ghost var _ := RevokeBestEffort(p, q, id.value);
        FailedStays(failed, calls, from, from, p);
        return None;
      }
      ghost var recorded := calls;
      var ok := Guard(p, q, id.value, w.value);
      if ok {
        m := Some((q, id.value, w.value));
        AskedStays(env, minted, calls, from, from, p, q);
      } else {
        m := None;
        UndoneEarlier(p, q, id.value, w.value, |recorded|, from);
        if CallFailed(calls, |recorded|, p) { FailedStays(calls, calls, |recorded|, from, p); }
      }
    }

    lemma ResolvedAtMint(p: Pid)
      requires Valid() && p in procs && procs[p].Creds? && procs[p].c.Mint?
      ensures Resolved(start, log, procs[p].c.q)
    {
      hide Run; hide CallsOf; hide Initial; hide Resolved;
      EveryRunIsGuarded(start, log);
      MintIsResolved(aap, start, log, procs[p].c.q);
    }

    static lemma ResolvedOn(start: State, past: seq<Action>, log: seq<Action>, q: Request)
      requires past <= log && Resolved(start, past, q)
      ensures Resolved(start, log, q)
      decreases |log|
    {
      hide Resolved;
      if past != log {
        var n := |log| - 1;
        ResolvedOn(start, past, log[..n], q);
        ResolvedStays(start, log[..n], log[n], q);
        assert log == log[..n] + [log[n]];
      }
    }

    lemma IsRecorded(p: Pid)
      requires Valid() && p in procs && procs[p].Creds? && procs[p].c.CheckContext?
      ensures procs[p].c.id in aap.tokens
      ensures if procs[p].c.w in wal then wal[procs[p].c.w].id == procs[p].c.id else procs[p].c.id !in aap.live
    {
      hide Run; hide CallsOf; hide NewClient; hide WellFormed; hide ServerOk; hide WalOk; hide LeasesOk; hide LedgerOk;
      hide LocksOk; hide CacheOk; hide RootOk;
      IsInv();
      assert ProcOk(View(), p, procs[p]);
    }

    lemma HasPassed(p: Pid)
      requires Valid() && p in procs && procs[p].Creds? && procs[p].c.CheckContext?
      ensures var c := procs[p].c;
              Resolved(start, log, c.q) && Tagged(aap, c.q, c.id) && Bound(aap, c.q, c.id) && Owned(aap, c.q, c.id)
    {
      hide Run; hide CallsOf; hide Initial; hide Resolved; hide Tagged; hide Bound; hide Owned;
      EveryRunIsGuarded(start, log);
      PassedFacts(aap, start, log, procs[p].c);
    }

    static lemma PassedFacts(a: Server, start: State, log: seq<Action>, c: CredsPc)
      requires c.CheckContext? && Established(a, start, log, c)
      ensures Resolved(start, log, c.q) && Tagged(a, c.q, c.id) && Bound(a, c.q, c.id) && Owned(a, c.q, c.id)
    {
      hide Resolved; hide Tagged; hide Bound; hide Owned;
    }

    /** From the check of the caller to the lease. Without one, a call failed, or the caller had gone, and the DELETE
        of the token was sent with the credential that minted it. */
    method FinishCreds(p: Pid, q: Request, id: int, w: nat) returns (l: Option<nat>)
      requires Valid() && At(p, Creds(CheckContext(q, id, w))) && NewClient(env, q.config).Ok?
      modifies this
      ensures Continues() && p !in procs
      ensures l.Some? ==> l.value in leases && leases[l.value] == LeaseFor(q, id) && leases[l.value].grant.id == id
      ensures l.Some? ==> old(nextLease) <= l.value
      ensures l.None? ==> CallFailed(calls, |old(calls)|, p)
      ensures l.None? ==> exists gone :: Sent(calls, |old(calls)|, Call(p, DeleteToken(NewClient(env, q.config).value.auth, id), gone))
    {
      hide Run; hide CallsOf; hide Next; hide NewClient; hide Initial; hide Sent; hide CallFailed; hide SteadyMint;
      ghost var from := |calls|;
      var waiting := CheckCaller(p, q, id, w);
      ghost var asked := calls;
      if !waiting {
        SentFailed(calls, from, Call(p, PollCaller, false));
        ghost var gone := UndoMint(p, q, id, w);
        SentStays(calls, calls, |asked|, from, Call(p, DeleteToken(NewClient(env, q.config).value.auth, id), gone));
        FailedStays(asked, calls, from, from, p);
        return None;
      }
      var ok := CommitMint(p, q, id, w);
      if !ok {
        SentFailed(calls, |asked|, Call(p, EraseWal(w), false));
        FailedStays(calls, calls, |asked|, from, p);
        ghost var kept := calls;
        ghost var gone := RevokeBestEffort(p, q, id);
        SentStays(calls, calls, |kept|, from, Call(p, DeleteToken(NewClient(env, q.config).value.auth, id), gone));
        FailedStays(kept, calls, from, from, p);
        return None;
      }
      PastIsKept(start, old(log), log);
      var registered := RegisterLease(p, LeaseFor(q, id));
      l := Some(registered);
    }

    /** createCreds. The lease it returns is new, for a token that this call minted; it carries the role's TTLs
        and the configuration that minted its token; nothing else answers for that token: no WAL entry, no other
        lease, not the stored root; and it belongs to the user and is bound to the application that this
        request was given, each listed once under the role's exact name; it was asked for in the role's scope; its
        description in AAP tells the configured prefix and the role's description. There is no lease only if one of
        the calls failed or the caller had gone, no client could be built from the stored configuration, or AAP shows
        the new token with another owner or application, and then it is undone. */
    method CreateCreds(p: Pid, name: string, role: Role) returns (l: Option<nat>)
      requires Valid() && p !in procs
      modifies this
      ensures Continues() && Began(start, log, |old(log)|, p, Minting(name, role)) && p !in procs
      ensures l.Some? ==>
                && l.value in leases && l.value !in old(leases)
                && var lease := leases[l.value];
                   && lease.grant.id !in old(aap.tokens)
                   && lease.ttl == role.ttl && lease.maxTtl == role.maxTtl
                   && lease.grant.role == name && lease.request.role == role
                       && lease.grant.config == lease.request.config
                   && (forall v :: v in wal ==> wal[v].id != lease.grant.id)
                   && (forall k :: k in leases && leases[k].grant.id == lease.grant.id ==> k == l.value)
                   && (config.Some? && config.value.tokenId > 0 ==> config.value.tokenId != lease.grant.id)
                   && lease.grant.id in aap.tokens && Tagged(aap, lease.request, lease.grant.id)
                   && AskedFor(env, calls, |old(calls)|, p, lease.request)
                   && (role.username != "" ==>
                         && aap.tokens[lease.grant.id].owner == lease.request.user
                         && ListedOnce(start, log, UserAsked(lease.request), role.username, lease.request.user))
                   && (role.application != "" ==>
                         && aap.tokens[lease.grant.id].application == lease.request.application
                         && ListedOnce(start, log, AppAsked(lease.request), role.application,
                             lease.request.application))
      ensures l.None? ==>
                || CallFailed(calls, |old(calls)|, p) || UnusableSince(start, log, |old(log)|, false)
                || exists q, id, w :: id !in old(aap.tokens) && Refused(p, name, role, q, id, w, |old(calls)|)
    {
      hide Run; hide CallsOf; hide Next; hide Inv; hide Began; hide NewClient; hide ListedOnce; hide Initial;
      hide Tagged; hide CallFailed; hide UnusableSince; hide Refused; hide Sent; hide Resolved; hide Bound; hide Owned;
      hide AskedFor;
      ghost var before, from := |log|, |calls|;
      BeginMinting(p, name, role);
      ghost var past, begun := log, calls;
      PastIsKept(start, old(log), log);
      var minted := CreateToken(p, name, role);
      l := None;
      PastIsKept(start, old(log), log);
      if minted.Some? {
        var (q, id, w) := minted.value;
        ghost var got := calls;
        l := FinishCreds(p, q, id, w);
        if l.None? { FailedStays(calls, calls, |got|, from, p); }
        AskedStays(env, got, calls, |begun|, from, p, q);
      } else {
        NoneSince(p, name, role, |past|, before, |begun|, from, old(aap.tokens).Keys);
      }
      BeganStays(start, past, log, |old(log)|, p, Minting(name, role));
      if l.Some? {
        LeaseStandsAlone(l.value);
        EveryLeaseIsGuarded(start, log, l.value);
      }
    }

    lemma NoneSince(p: Pid, name: string, role: Role, past: nat, before: nat, begun: nat, from: nat, known: set<int>)
      requires before <= past && from <= begun
      requires || CallFailed(calls, begun, p) || UnusableSince(start, log, past, false)
               || exists q, id, w :: id !in known && Refused(p, name, role, q, id, w, begun)
      ensures || CallFailed(calls, from, p) || UnusableSince(start, log, before, false)
              || exists q, id, w :: id !in known && Refused(p, name, role, q, id, w, from)
    {
      hide Run; hide CallFailed; hide UnusableSince; hide Undone; hide Resolved; hide Mismatched;
      if CallFailed(calls, begun, p) { FailedStays(calls, calls, begun, from, p); }
      else if UnusableSince(start, log, past, false) { UnusableStays(start, log, log, past, before, false); }
      else {
        var q, id, w :| id !in known && Refused(p, name, role, q, id, w, begun);
        UndoneEarlier(p, q, id, w, begun, from);
        assert Refused(p, name, role, q, id, w, from);
      }
    }

    lemma LeaseStandsAlone(l: nat)
      requires Valid() && l in leases
      ensures forall v :: v in wal ==> wal[v].id != leases[l].grant.id
      ensures forall k :: k in leases && leases[k].grant.id == leases[l].grant.id ==> k == l
      ensures config.Some? && config.value.tokenId > 0 ==> config.value.tokenId != leases[l].grant.id
    {
      hide Run; hide CallsOf; hide Inv;
      assert Reachable(View());
      forall v | v in wal
        ensures wal[v].id != leases[l].grant.id
      {
        RecordsAreDisjoint(View(), l, v);
      }
      RecordsAreDisjoint(View(), l, 0);
    }
  }
}
