/** The lifecycle with a clock: when the periodic WAL rollback cannot overtake a request still at work. */
module Clock {
  import opened Wrappers
  import opened Client
  import opened ConfigWrite
  import opened Marker
  import opened Aap
  import opened Roles
  import opened Protocol
  import opened Invariant
  import opened StepKinds
  import opened Lifecycle
  import opened Effects
  import opened Progress

  /** walRollbackMinAge, and the time limit of every storage call in a creds request. */
  const MIN_AGE := 300 * SECOND
  const STORAGE_LIMIT := 30 * SECOND

  /** `entered` is when each operation began the call it is in; `created` is the time stamped on each WAL
      entry, which is when its PutWAL call began. */
  datatype Timed = Timed(s: State, now: int, entered: map<Pid, int>, created: map<nat, int>)

  /** The limit of one AAP call. */
  function CallLimit(c: Config): (t: int)
    ensures t > 0
  {
    if c.requestTimeout > 0 then c.requestTimeout else DEFAULT_HTTP_TIMEOUT
  }

  /** How long an operation can stay where it is; None if nothing here depends on it. */
  function Limit(pc: Proc): Option<int> {
    match pc
    case Creds(PutWal(_, _)) => Some(STORAGE_LIMIT)
    case Creds(GuardApp(q, _, _)) => Some(CallLimit(q.config))
    case Creds(GuardUser(q, _, _)) => Some(CallLimit(q.config))
    case Creds(CheckContext(_, _, _)) => Some(0)
    case Creds(Commit(_, _, _)) => Some(STORAGE_LIMIT)
    case _ => None
  }

  /** No call outlasts its limit. */
  predicate OnTime(x: Timed, time: int) {
    && x.now <= time
    && forall p :: p in x.s.procs && p in x.entered && Limit(x.s.procs[p]).Some? ==> time <= x.entered[p] + Limit(x.s.procs[p]).value
  }

  /** A rollback begins only once its entry has reached the minimum age. */
  predicate OldEnough(x: Timed, a: Action, time: int) {
    a.Act? && a.e.Begin? && a.e.op.Revoking? && a.e.op.src.FromWal? && a.e.op.src.w in x.created ==>
      time - x.created[a.e.op.src.w] >= MIN_AGE
  }

  function Tick(x: Timed, a: Action, time: int): Timed {
    var t := Next(x.s, a);
    Timed(t, time,
          map p | p in t.procs :: if p in x.s.procs && p in x.entered && t.procs[p] == x.s.procs[p] then x.entered[p] else time,
          map w | w in x.created.Keys + t.wal.Keys ::
            if w in x.created then x.created[w] else if a.Act? && a.p in x.entered then x.entered[a.p] else time)
  }

  predicate PossibleTimes(x: Timed, steps: seq<(Action, int)>)
    decreases |steps|
  {
    steps == [] ||
    (OnTime(x, steps[0].1) && OldEnough(x, steps[0].0, steps[0].1)
        && PossibleTimes(Tick(x, steps[0].0, steps[0].1), steps[1..]))
  }

  function TimedRun(x: Timed, steps: seq<(Action, int)>): Timed
    decreases |steps|
  {
    if steps == [] then x else TimedRun(Tick(x, steps[0].0, steps[0].1), steps[1..])
  }

  // ----- Where a request relies on its WAL entry

  /** How long a request may spend on the AAP calls between recording its token and committing: one for each
      guard that its role asks for. */
  function GuardTime(q: Request): int {
    (if q.application > 0 then CallLimit(q.config) else 0) + (if q.role.username != "" then CallLimit(q.config) else 0)
  }

  /** The guards and the two storage calls around them fit into the minimum age. */
  predicate InTime(q: Request) { GuardTime(q) + 2 * STORAGE_LIMIT < MIN_AGE }

  /** A request between its WAL entry's creation and deletion: its entry, and how much later than the entry's
      time stamp it can have entered this call. */
  datatype Span = Span(q: Request, w: nat, allowance: int)

  function SpanOf(pc: Proc): Option<Span> {
    match pc
    case Creds(GuardApp(q, _, w)) => Some(Span(q, w, STORAGE_LIMIT))
    case Creds(GuardUser(q, _, w)) => Some(Span(q, w, STORAGE_LIMIT + if q.application > 0 then CallLimit(q.config) else 0))
    case Creds(CheckContext(q, _, w)) => Some(Span(q, w, STORAGE_LIMIT + GuardTime(q)))
    case Creds(Commit(q, _, w)) => Some(Span(q, w, STORAGE_LIMIT + GuardTime(q)))
    case _ => None
  }

  /** A guard runs only if the request asks for it. */
  predicate GuardAsked(pc: Proc) {
    match pc
    case Creds(GuardApp(q, _, _)) => q.application > 0
    case Creds(GuardUser(q, _, _)) => q.role.username != ""
    case _ => true
  }

  ghost predicate SpanOk(x: Timed, p: Pid, span: Span) {
    && p in x.entered && span.w in x.created && x.entered[p] <= x.created[span.w] + span.allowance
    && (InTime(span.q) ==> span.w in x.s.wal)
  }

  ghost predicate TimedInv(x: Timed) {
    && Inv(x.s)
    && (forall p :: p in x.s.procs ==> p in x.entered && x.entered[p] <= x.now)
    && OnTime(x, x.now)
    && (forall w :: w in x.s.wal ==> w in x.created)
    && (forall w :: w in x.created ==> w < x.s.nextWal)
    && (forall p :: p in x.s.procs && SpanOf(x.s.procs[p]).Some? ==> SpanOk(x, p, SpanOf(x.s.procs[p]).value))
    && (forall p :: p in x.s.procs ==> GuardAsked(x.s.procs[p]))
    && (forall p :: p in x.s.procs && RollsBack(x.s.procs[p]).Some? ==>
          RollsBack(x.s.procs[p]).value in x.created && x.created[RollsBack(x.s.procs[p]).value] + MIN_AGE <= x.now)
  }

  function RollsBack(pc: Proc): Option<nat> {
    match pc case Revoke(FromWal(w), _) => Some(w) case _ => None
  }

  /** A request within its limits is younger, counted from its entry's time stamp, than any rollback. */
  lemma NoRollbackYet(x: Timed, p: Pid, q: Pid, time: int)
    requires TimedInv(x) && OnTime(x, time) && p in x.s.procs && q in x.s.procs
    requires SpanOf(x.s.procs[p]).Some? && InTime(SpanOf(x.s.procs[p]).value.q)
    ensures RollsBack(x.s.procs[q]) != Some(SpanOf(x.s.procs[p]).value.w)
    ensures time < x.created[SpanOf(x.s.procs[p]).value.w] + MIN_AGE
  {
    hide Inv;
    assert SpanOk(x, p, SpanOf(x.s.procs[p]).value);
  }

  // ----- WAL entries come and go

  /** At most the next entry is added. */
  ghost predicate WalSteps(s: State, t: State) {
    && s.nextWal <= t.nextWal
    && forall w :: w in t.wal ==> w in s.wal || (w == s.nextWal < t.nextWal)
  }

  lemma CredsWal(s: State, p: Pid, c: CredsPc, e: Event)
    ensures WalSteps(s, CredsStep(s, p, c, e))
    ensures forall w :: w in s.wal && w !in CredsStep(s, p, c, e).wal ==> (c.Commit? || c.UndoWal?) && c.w == w
  {
    hide NewClient; hide Delete; hide DeleteConfirmed; hide Works; hide ResolveId; hide AfterConfig; hide AfterApp;
    hide AfterWal; hide AfterGuardApp; hide SweepListStep; hide SweepDeleteStep; hide AwaitMintStep;
    match c
    case Mint(q) => MintKeepsRecords(s, p, q, e);
    case SweepList(auth, description, _, token) => SweepListKeepsRecords(s, p, auth, description, token, e);
    case SweepDelete(auth, ids, token) => SweepDeleteKeepsRecords(s, p, auth, ids, token, e);
    case _ =>
  }

  lemma RevokeWal(s: State, p: Pid, src: Source, r: RevokePc, e: Event)
    ensures WalSteps(s, RevokeStep(s, p, src, r, e))
    ensures forall w :: w in s.wal && w !in RevokeStep(s, p, src, r, e).wal ==> src == FromWal(w)
  {
    hide NewClient; hide Delete; hide DeleteConfirmed;
  }

  lemma RotateWal(s: State, p: Pid, t: RotatePc, e: Event)
    ensures WalSteps(s, RotateStep(s, p, t, e)) && forall w :: w in s.wal ==> w in RotateStep(s, p, t, e).wal
  {
    hide NewClient; hide Delete; hide DeleteConfirmed; hide Works; hide Creates; hide Post;
  }

  lemma WriteWal(s: State, p: Pid, w: WritePc, e: Event)
    ensures WriteStep(s, p, w, e).wal == s.wal && WriteStep(s, p, w, e).nextWal == s.nextWal
  {
    hide NewClient; hide Works; hide Accept;
  }

  /** An entry goes only by its own request or by a rollback of it. */
  lemma StepWal(s: State, a: Action)
    ensures WalSteps(s, Next(s, a))
    ensures forall w :: w in s.wal && w !in Next(s, a).wal ==>
              a.Act? && a.p in s.procs && (RollsBack(s.procs[a.p]) == Some(w)
                || (s.procs[a.p].Creds? && (s.procs[a.p].c.Commit? || s.procs[a.p].c.UndoWal?)
                    && s.procs[a.p].c.w == w))
  {
    hide CredsStep; hide RevokeStep; hide RotateStep; hide WriteStep; hide TargetOf; hide AfterCrash;
    if a.Act? && a.p in s.procs {
      match s.procs[a.p]
      case Creds(c) => CredsWal(s, a.p, c, a.e);
      case Revoke(src, r) => RevokeWal(s, a.p, src, r, a.e);
      case Rotate(t) => RotateWal(s, a.p, t, a.e);
      case Write(w) => WriteWal(s, a.p, w, a.e);
    }
  }

  // ----- One timed step

  /** The span n follows on c: it starts with the entry just written, or goes on with c's entry no later
      than c's limit allows. */
  predicate Follows(s: State, t: State, c: CredsPc, n: Span) {
    || (c.PutWal? && n.q == c.q && n.w == s.nextWal && n.w in t.wal && n.w !in s.wal
        && n.allowance >= STORAGE_LIMIT)
    || (&& SpanOf(Creds(c)).Some? && Limit(Creds(c)).Some?
        && n.q == SpanOf(Creds(c)).value.q && n.w == SpanOf(Creds(c)).value.w
        && SpanOf(Creds(c)).value.allowance + Limit(Creds(c)).value <= n.allowance)
  }

  lemma WriteStartsSpan(s: State, p: Pid, q: Request, id: int, e: Event)
    requires s.nextWal !in s.wal && p in s.procs && s.procs[p] == Creds(PutWal(q, id))
    requires var t := PutWalStep(s, p, q, id, e); p in t.procs && SpanOf(t.procs[p]).Some?
    ensures var t := PutWalStep(s, p, q, id, e);
            Follows(s, t, PutWal(q, id), SpanOf(t.procs[p]).value) && GuardAsked(t.procs[p])
  {
    hide CallLimit;
    CallsTakeTime();
  }

  lemma GuardsGoOn(s: State, p: Pid, c: CredsPc, e: Event)
    requires p in s.procs && s.procs[p] == Creds(c) && (c.GuardApp? || c.GuardUser? || c.CheckContext?)
    requires GuardAsked(Creds(c))
    requires var t := CredsStep(s, p, c, e); p in t.procs && t.procs[p] != Creds(c) && SpanOf(t.procs[p]).Some?
    ensures var t := CredsStep(s, p, c, e); Follows(s, t, c, SpanOf(t.procs[p]).value) && GuardAsked(t.procs[p])
  {
    hide NewClient; hide Works; hide CallLimit; hide ReadConfigStep; hide ResolveAppStep; hide ResolveUserStep;
    hide AwaitMintStep; hide SweepListStep; hide SweepDeleteStep; hide PutWalStep; hide DropUnloggedStep; hide UndoStep;
    hide UndoWalStep; hide CommitStep; hide UndoCommitStep; hide RespondStep;
    CallsTakeTime();
  }

  lemma CallsTakeTime()
    ensures forall c :: CallLimit(c) > 0
  {
  }

  lemma OthersHaveNoSpan(s: State, p: Pid, c: CredsPc, e: Event)
    requires p in s.procs && s.procs[p] == Creds(c) && !c.PutWal? && !c.GuardApp? && !c.GuardUser? && !c.CheckContext?
    requires !c.SweepList? && !c.SweepDelete? && !c.Mint?
    ensures var t := CredsStep(s, p, c, e); p in t.procs && t.procs[p] != Creds(c) ==> SpanOf(t.procs[p]).None?
  {
    hide NewClient; hide Delete; hide DeleteConfirmed; hide ResolveId; hide SweepListStep; hide SweepDeleteStep;
    hide AwaitMintStep; hide PutWalStep; hide GuardAppStep; hide GuardUserStep; hide CheckContextStep;
  }

  /** The next call of a request begins within the limit of the one before. */
  lemma SpanFollows(s: State, p: Pid, c: CredsPc, e: Event)
    requires Inv(s) && p in s.procs && s.procs[p] == Creds(c) && GuardAsked(Creds(c))
    requires var t := CredsStep(s, p, c, e); p in t.procs && t.procs[p] != Creds(c) && SpanOf(t.procs[p]).Some?
    ensures var t := CredsStep(s, p, c, e); Follows(s, t, c, SpanOf(t.procs[p]).value) && GuardAsked(t.procs[p])
  {
    hide Inv; hide Follows; hide SpanOf; hide GuardAsked; hide ReadConfigStep; hide ResolveAppStep;
    hide ResolveUserStep; hide AwaitMintStep; hide SweepListStep; hide SweepDeleteStep; hide PutWalStep;
    hide DropUnloggedStep; hide GuardAppStep; hide GuardUserStep; hide CheckContextStep; hide UndoStep;
    hide UndoWalStep; hide CommitStep; hide UndoCommitStep; hide RespondStep;
    NextEntryIsNew(s);
    if c.SweepList? || c.SweepDelete? || c.Mint? { SweepsHaveNoSpan(s, p, c, e); }
    else if c.PutWal? { WriteStartsSpan(s, p, c.q, c.id, e); }
    else if c.GuardApp? || c.GuardUser? || c.CheckContext? { GuardsGoOn(s, p, c, e); }
    else { OthersHaveNoSpan(s, p, c, e); }
  }

  lemma SweepsHaveNoSpan(s: State, p: Pid, c: CredsPc, e: Event)
    requires p in s.procs && s.procs[p] == Creds(c) && (c.SweepList? || c.SweepDelete? || c.Mint?)
    ensures var t := CredsStep(s, p, c, e); p in t.procs ==> SpanOf(t.procs[p]).None?
  {
    hide NewClient; hide Delete; hide DeleteConfirmed; hide Works; hide Truthful; hide IdsWithDescription;
    hide MintDescription; hide Creates; hide Post; hide ReadConfigStep; hide ResolveAppStep; hide ResolveUserStep;
    hide PutWalStep; hide DropUnloggedStep; hide GuardAppStep; hide GuardUserStep; hide CheckContextStep; hide UndoStep;
    hide UndoWalStep; hide CommitStep; hide UndoCommitStep; hide RespondStep; hide AbandonAny;
  }

  lemma NextEntryIsNew(s: State)
    requires Inv(s)
    ensures s.nextWal !in s.wal
  {
    hide ProcOk; hide RootOk; hide LedgerOk; hide LocksOk; hide CacheOk;
  }

  lemma RevokeKeepsSource(s: State, p: Pid, src: Source, r: RevokePc, e: Event)
    requires p in s.procs && s.procs[p] == Revoke(src, r)
    ensures var t := RevokeStep(s, p, src, r, e); p in t.procs ==> t.procs[p].Revoke? && t.procs[p].src == src
  {
    hide NewClient; hide Delete; hide DeleteConfirmed;
  }

  /** A rollback in flight was in flight before, or begins now, on an entry that is there and old enough. */
  lemma RollbackFollows(x: Timed, a: Action, time: int, q: Pid)
    requires TimedInv(x) && OldEnough(x, a, time) && q in Next(x.s, a).procs && RollsBack(Next(x.s, a).procs[q]).Some?
    ensures var w := RollsBack(Next(x.s, a).procs[q]).value;
            (q in x.s.procs && RollsBack(x.s.procs[q]) == Some(w)) || (w in x.s.wal && w in x.created
                && x.created[w] + MIN_AGE <= time)
  {
    hide Inv; hide CredsStep; hide RevokeStep; hide RotateStep; hide WriteStep; hide Grows; hide TargetOf;
    hide AfterCrash;
    if a.Act? {
      StepMovesOne(x.s, a.p, a.e);
      if q == a.p && q in x.s.procs {
        match x.s.procs[q]
        case Creds(c) => CredsGrows(x.s, q, c, a.e);
        case Revoke(src, r) => RevokeKeepsSource(x.s, q, src, r, a.e);
        case Rotate(t) => RootOpsStayRootOps(x.s, q, t, ResetClient, a.e);
        case Write(w) => RootOpsStayRootOps(x.s, q, LoadRoot, w, a.e);
      } else if q == a.p {
        assert a.e.Begin? && a.e.op.Revoking?;
        TargetIsGrant(x.s, a.e.op.src);
      }
    }
  }

  /** Two requests never share a WAL entry. */
  lemma SoleHolder(s: State, p: Pid, q: Pid, w: nat)
    requires Inv(s) && w in s.wal && p in s.procs && q in s.procs && UsesEntry(s.procs[p], w)
        && UsesEntry(s.procs[q], w)
    ensures p == q
  {
    hide WellFormed; hide NewClient; hide ServerOk; hide WalOk; hide LeasesOk; hide RootOk; hide LedgerOk; hide LocksOk;
    hide CacheOk;
    assert ProcOk(s, p, s.procs[p]) && ProcOk(s, q, s.procs[q]);
  }

  predicate UsesEntry(pc: Proc, w: nat) {
    match pc
    case Creds(GuardApp(_, _, v)) => v == w
    case Creds(GuardUser(_, _, v)) => v == w
    case Creds(CheckContext(_, _, v)) => v == w
    case Creds(Commit(_, _, v)) => v == w
    case Creds(UndoWal(_, _, v)) => v == w
    case _ => false
  }

  /** The entry of a request within its limits survives every step but its own commit. */
  lemma EntrySurvives(x: Timed, a: Action, time: int, p: Pid)
    requires TimedInv(x) && OnTime(x, time) && p in x.s.procs && SpanOf(x.s.procs[p]).Some?
        && InTime(SpanOf(x.s.procs[p]).value.q)
    requires p in Next(x.s, a).procs && SpanOf(Next(x.s, a).procs[p]).Some?
        && SpanOf(Next(x.s, a).procs[p]).value.w == SpanOf(x.s.procs[p]).value.w
    ensures SpanOf(x.s.procs[p]).value.w in Next(x.s, a).wal
  {
    hide Inv; hide Next; hide InTime;
    var w := SpanOf(x.s.procs[p]).value.w;
    assert SpanOk(x, p, SpanOf(x.s.procs[p]).value);
    StepWal(x.s, a);
    if w !in Next(x.s, a).wal {
      if RollsBack(x.s.procs[a.p]) == Some(w) {
        NoRollbackYet(x, p, a.p, time);
      } else {
        SoleHolder(x.s, p, a.p, w);
        CommitLeaves(x.s, p, a.e);
      }
    }
  }

  lemma CommitLeaves(s: State, p: Pid, e: Event)
    requires p in s.procs && s.procs[p].Creds? && s.procs[p].c.Commit?
    requires p in Next(s, Act(p, e)).procs && SpanOf(Next(s, Act(p, e)).procs[p]).Some?
    ensures Next(s, Act(p, e)).wal == s.wal
  {
    hide NewClient; hide RevokeStep; hide RotateStep; hide WriteStep; hide Start;
  }

  lemma TimesKept(x: Timed, a: Action, time: int)
    requires TimedInv(x) && OnTime(x, time)
    ensures var y := Tick(x, a, time);
            && (forall p :: p in y.s.procs ==> p in y.entered && y.entered[p] <= time)
            && OnTime(y, time)
            && (forall w :: w in y.s.wal ==> w in y.created)
            && (forall w :: w in y.created ==> w < y.s.nextWal)
            && (forall w :: w in x.created ==> w in y.created && y.created[w] == x.created[w])
            && (forall w :: w in y.s.wal && w !in x.s.wal && a.Act? && a.p in x.entered ==> y.created[w] == x.entered[a.p])
  {
    hide Inv; hide Next; hide SpanOk;
    StepWal(x.s, a);
    FreshIsUnstamped(x);
  }

  lemma FreshIsUnstamped(x: Timed)
    requires TimedInv(x)
    ensures x.s.nextWal !in x.created
  {
  }

  lemma SpanKept(x: Timed, a: Action, time: int, p: Pid)
    requires TimedInv(x) && OnTime(x, time) && p in Next(x.s, a).procs && SpanOf(Next(x.s, a).procs[p]).Some?
    ensures SpanOk(Tick(x, a, time), p, SpanOf(Next(x.s, a).procs[p]).value) && GuardAsked(Next(x.s, a).procs[p])
  {
    hide Inv; hide Next; hide InTime;
    var y := Tick(x, a, time);
    TimesKept(x, a, time);
    SpanWasThere(x.s, a, p);
    if x.s.procs[p] == y.s.procs[p] {
      assert SpanOk(x, p, SpanOf(x.s.procs[p]).value);
      if InTime(SpanOf(x.s.procs[p]).value.q) { EntrySurvives(x, a, time, p); }
    } else {
      var c := x.s.procs[p].c;
      SpanFollows(x.s, p, c, a.e);
      if !c.PutWal? {
        assert SpanOk(x, p, SpanOf(x.s.procs[p]).value);
        if InTime(SpanOf(x.s.procs[p]).value.q) { EntrySurvives(x, a, time, p); }
      }
    }
  }

  /** A request with a span was a creds request before, and only its own step moved it. */
  lemma SpanWasThere(s: State, a: Action, p: Pid)
    requires Inv(s) && p in Next(s, a).procs && SpanOf(Next(s, a).procs[p]).Some?
    ensures p in s.procs && s.procs[p].Creds?
    ensures Next(s, a).procs[p] != s.procs[p] ==> a.Act? && a.p == p && Next(s, a) == CredsStep(s, p, s.procs[p].c, a.e)
  {
    hide Inv; hide CredsStep; hide RevokeStep; hide RotateStep; hide WriteStep; hide Grows; hide TargetOf;
    hide AfterCrash; hide GuardTime; hide CallLimit;
    if a.Act? {
      StepMovesOne(s, a.p, a.e);
      if p == a.p && p in s.procs {
        match s.procs[p]
        case Creds(c) =>
        case Revoke(src, r) => RevokeKeepsSource(s, p, src, r, a.e);
        case Rotate(t) => RootOpsStayRootOps(s, p, t, ResetClient, a.e);
        case Write(w) => RootOpsStayRootOps(s, p, LoadRoot, w, a.e);
      }
    }
  }

  lemma TickKeeps(x: Timed, a: Action, time: int)
    requires TimedInv(x) && OnTime(x, time) && OldEnough(x, a, time)
    ensures TimedInv(Tick(x, a, time))
  {
    hide Inv; hide Next; hide SpanOk; hide OldEnough;
    var y := Tick(x, a, time);
    NextKeeps(x.s, a);
    TimesKept(x, a, time);
    forall p | p in y.s.procs && SpanOf(y.s.procs[p]).Some?
      ensures SpanOk(y, p, SpanOf(y.s.procs[p]).value)
    {
      SpanKept(x, a, time, p);
    }
    forall p | p in y.s.procs
      ensures GuardAsked(y.s.procs[p])
    {
      if SpanOf(y.s.procs[p]).Some? { SpanKept(x, a, time, p); }
    }
    forall q | q in y.s.procs && RollsBack(y.s.procs[q]).Some?
      ensures RollsBack(y.s.procs[q]).value in y.created && y.created[RollsBack(y.s.procs[q]).value] + MIN_AGE <= y.now
    {
      RollbackFollows(x, a, time, q);
    }
  }

  // ----- Every timed run

  predicate FreshMount(x: Timed) { Initial(x.s) && x.entered == map[] && x.created == map[] }

  lemma {:induction false} TimedRunKeeps(x: Timed, steps: seq<(Action, int)>)
    requires TimedInv(x) && PossibleTimes(x, steps)
    ensures TimedInv(TimedRun(x, steps))
    decreases |steps|
  {
    hide TimedInv; hide Tick; hide OnTime; hide OldEnough;
    if steps != [] {
      TickKeeps(x, steps[0].0, steps[0].1);
      TimedRunKeeps(Tick(x, steps[0].0, steps[0].1), steps[1..]);
    }
  }

  ghost predicate TimedReachable(x: Timed) {
    exists x0: Timed, steps: seq<(Action, int)> :: FreshMount(x0) && PossibleTimes(x0, steps) && x == TimedRun(x0, steps)
  }

  lemma TimedReachableInv(x: Timed)
    requires TimedReachable(x)
    ensures TimedInv(x)
  {
    hide Inv; hide TimedRun; hide PossibleTimes;
    var x0: Timed, steps: seq<(Action, int)> :| FreshMount(x0) && PossibleTimes(x0, steps) && x == TimedRun(x0, steps);
    assert TimedInv(x0) by { InitialInv(x0.s); }
    TimedRunKeeps(x0, steps);
  }

  /** From the moment a token is recorded until its WAL entry is deleted for the lease, no more than the guards
      its role asks for and two storage calls can pass. While these fit into the minimum age, no rollback
      overtakes the request: its entry is there, and no rollback of it has even begun. */
  lemma RollbackNeverOvertakes(x: Timed, p: Pid)
    requires TimedReachable(x) && p in x.s.procs && SpanOf(x.s.procs[p]).Some?
    ensures var span := SpanOf(x.s.procs[p]).value;
            && span.w in x.created && x.now - x.created[span.w] <= GuardTime(span.q) + 2 * STORAGE_LIMIT
            && (GuardTime(span.q) + 2 * STORAGE_LIMIT < MIN_AGE ==>
                  span.w in x.s.wal && forall q :: q in x.s.procs ==> RollsBack(x.s.procs[q]) != Some(span.w))
  {
    hide Inv; hide TimedReachable;
    TimedReachableInv(x);
    assert SpanOk(x, p, SpanOf(x.s.procs[p]).value);
    assert GuardAsked(x.s.procs[p]);
    if InTime(SpanOf(x.s.procs[p]).value.q) {
      forall q | q in x.s.procs
        ensures RollsBack(x.s.procs[q]) != Some(SpanOf(x.s.procs[p]).value.w)
      {
        NoRollbackYet(x, p, q, x.now);
      }
    }
  }

  /** No rollback of this entry is under way, and none can begin. */
  predicate Spared(x: Timed, w: nat) {
    w < x.s.nextWal && w !in x.s.wal && forall q :: q in x.s.procs ==> RollsBack(x.s.procs[q]) != Some(w)
  }

  lemma StaysSpared(x: Timed, a: Action, time: int, w: nat)
    requires TimedInv(x) && OldEnough(x, a, time) && Spared(x, w)
    ensures Spared(Tick(x, a, time), w)
  {
    hide Inv; hide Next; hide OldEnough; hide SpanOk;
    StepWal(x.s, a);
    forall q | q in Next(x.s, a).procs
      ensures RollsBack(Next(x.s, a).procs[q]) != Some(w)
    {
      if RollsBack(Next(x.s, a).procs[q]).Some? { RollbackFollows(x, a, time, q); }
    }
  }

  lemma {:induction false} SparedForGood(x: Timed, steps: seq<(Action, int)>, w: nat)
    requires TimedInv(x) && PossibleTimes(x, steps) && Spared(x, w)
    ensures Spared(TimedRun(x, steps), w)
    decreases |steps|
  {
    hide TimedInv; hide Tick; hide OnTime; hide OldEnough; hide Spared;
    if steps != [] {
      TickKeeps(x, steps[0].0, steps[0].1);
      StaysSpared(x, steps[0].0, steps[0].1, w);
      SparedForGood(Tick(x, steps[0].0, steps[0].1), steps[1..], w);
    }
  }

  /** So no token of such a request is ever rolled back: once the request has deleted the WAL entry, no
      rollback of that entry is under way at any later time. */
  lemma LeasedMintsAreSpared(x: Timed, p: Pid, q: Request, id: int, w: nat, time: int, later: seq<(Action, int)>)
    requires TimedReachable(x) && p in x.s.procs && x.s.procs[p] == Creds(Commit(q, id, w))
        && InTime(q)
    requires OnTime(x, time) && PossibleTimes(Tick(x, Act(p, Succeeds), time), later)
    ensures Spared(TimedRun(Tick(x, Act(p, Succeeds), time), later), w)
  {
    hide Inv; hide TimedReachable; hide TimedRun; hide PossibleTimes; hide SpanOk;
    TimedReachableInv(x);
    RollbackNeverOvertakes(x, p);
    var y := Tick(x, Act(p, Succeeds), time);
    TickKeeps(x, Act(p, Succeeds), time);
    Commits(x, p, q, id, w, time);
    SparedForGood(y, later, w);
  }

  lemma Commits(x: Timed, p: Pid, q: Request, id: int, w: nat, time: int)
    requires p in x.s.procs && x.s.procs[p] == Creds(Commit(q, id, w)) && w < x.s.nextWal
    requires forall r :: r in x.s.procs ==> RollsBack(x.s.procs[r]) != Some(w)
    ensures Spared(Tick(x, Act(p, Succeeds), time), w)
  {
    hide RevokeStep; hide RotateStep; hide WriteStep; hide Start;
  }
}
