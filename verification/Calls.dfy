/** The calls that operations make to AAP and to storage, read off a run: which request each step sent, and
    whether it returned without an error. */
module Calls {
  import opened Wrappers
  import opened Client
  import opened ConfigWrite
  import opened Marker
  import opened Aap
  import opened Roles
  import opened Protocol

  datatype Query =
    // storage
    | GetConfig | SetConfig(config: Config) | DropConfig | AppendWal(grant: Grant) | EraseWal(w: nat)
    // AAP
    | GetApplications(auth: Auth, name: string) | GetUsers(auth: Auth, name: string)
    | PostToken(auth: Auth, scope: string, description: string, application: int) | GetTokens(auth: Auth)
        | DeleteToken(auth: Auth, id: int)
    | GetToken(auth: Auth, id: int) | Verify(auth: Auth)
    // Vault
    | DrawMarker | PollCaller | DiscardRecord(src: Source)

  /** `ok` is what the operation was told: no error. */
  datatype Call = Call(p: Pid, query: Query, ok: bool)

  // ----- The call of one step; none without a client for the configuration

  function Deletes(s: State, p: Pid, auth: Auth, id: int, e: Event): seq<Call> {
    if e.DeleteReplied? then [Call(p, DeleteToken(auth, id), DeleteConfirmed(s.aap, auth, id, e.delete))] else []
  }

  function DeletesAs(s: State, p: Pid, c: Config, id: int, e: Event): seq<Call> {
    match NewClient(s.env, c) case Err(_) => [] case Ok(k) => Deletes(s, p, k.auth, id, e)
  }

  function Stores(p: Pid, query: Query, e: Event): seq<Call> {
    if e.Succeeds? || e.Fails? then [Call(p, query, e.Succeeds?)] else []
  }

  function Verifies(s: State, p: Pid, c: Config, e: Event): seq<Call> {
    match NewClient(s.env, c)
    case Err(_) => []
    case Ok(k) => if e.Succeeds? || e.Fails? then [Call(p, Verify(k.auth), e.Succeeds? && Works(s.aap, k.auth))] else []
  }

  function ReadsToken(s: State, p: Pid, c: Config, id: int, e: Event): seq<Call> {
    match NewClient(s.env, c)
    case Err(_) => []
    case Ok(k) =>
      if e.Succeeds? || e.Fails?
      then [Call(p, GetToken(k.auth, id), e.Succeeds? && Works(s.aap, k.auth) && id in s.aap.live
          && id in s.aap.tokens)]
      else []
  }

  function Finds(s: State, p: Pid, c: Config, users: bool, name: string, e: Event): seq<Call> {
    match NewClient(s.env, c)
    case Err(_) => []
    case Ok(k) =>
      if e.Lookup? || e.Fails?
      then [Call(p, if users then GetUsers(k.auth, name) else GetApplications(k.auth, name), e.Lookup? && ResolveId(e.named, name).Ok?)]
      else []
  }

  function Mints(s: State, p: Pid, q: Request, e: Event): seq<Call> {
    if e.Fails? then [Call(p, DrawMarker, false)]
    else if e.PostReplied? && IsRequestId(e.requestId) && e.requestId !in s.markers && NewClient(s.env, q.config).Ok? then
      var auth := MintAuth(s.env, q);
      [Call(p, PostToken(auth, q.role.scope, MintDescription(q.config.tokenDescriptionPrefix, q.role.description,
          e.requestId), q.application),
            Answered(e.post) && Creates(s.aap, auth, e.post))]
    else []
  }

  function Lists(s: State, p: Pid, auth: Auth, e: Event): seq<Call> {
    if e.Fails? || (e.Listing? && (!Works(s.aap, auth) || Truthful(s.aap, e.rows)))
    then [Call(p, GetTokens(auth), e.Listing? && Works(s.aap, auth))] else []
  }

  function ByCreds(s: State, p: Pid, c: CredsPc, e: Event): seq<Call> {
    match c
    case ReadConfig(_, _) => Stores(p, GetConfig, e)
    case ResolveApp(q) => Finds(s, p, q.config, false, q.role.application, e)
    case ResolveUser(q) => Finds(s, p, q.config, true, q.role.username, e)
    case Mint(q) => Mints(s, p, q, e)
    case SweepList(auth, _, _, _) => Lists(s, p, auth, e)
    case SweepDelete(auth, ids, _) => if ids == [] then [] else Deletes(s, p, auth, ids[0], e)
    case PutWal(q, id) => Stores(p, AppendWal(Grant(id, q.name, q.config)), e)
    case DropUnlogged(q, id) => DeletesAs(s, p, q.config, id, e)
    case GuardApp(q, id, _) => ReadsToken(s, p, q.config, id, e)
    case GuardUser(q, id, _) => ReadsToken(s, p, q.config, id, e)
    case CheckContext(_, _, _) => if e.Succeeds? || e.Cancel? then [Call(p, PollCaller, e.Succeeds?)] else []
    case Undo(q, id, _) => DeletesAs(s, p, q.config, id, e)
    case UndoWal(_, _, w) => Stores(p, EraseWal(w), e)
    case Commit(_, _, w) => Stores(p, EraseWal(w), e)
    case UndoCommit(q, id, _) => DeletesAs(s, p, q.config, id, e)
    case Respond(_) => []
  }

  function ByRevoke(s: State, p: Pid, src: Source, r: RevokePc, e: Event): seq<Call> {
    match r
    case BySnapshot(id, Some(k)) => Deletes(s, p, k.auth, id, e)
    case LoadClient(_, _) => if s.client.Some? then [] else Stores(p, GetConfig, e)
    case ByCurrent(id, _, k) => Deletes(s, p, k.client.auth, id, e)
    case Revoked(_) => Stores(p, DiscardRecord(src), e)
    case _ => []
  }

  function ByRotate(s: State, p: Pid, t: RotatePc, e: Event): seq<Call> {
    match t
    case LoadRoot => Stores(p, GetConfig, e)
    case MintRoot(c) =>
      (match NewClient(s.env, c)
       case Err(_) => []
       case Ok(k) =>
         if !e.PostReplied? then []
         else
           [Call(p, PostToken(k.auth, "write", ROOT_DESCRIPTION, 0), Answered(e.post) && Creates(s.aap, k.auth, e.post))])
    case VerifyRoot(_, next) => Verifies(s, p, next, e)
    case PutRoot(_, next) => Stores(p, SetConfig(next), e)
    case CleanupRoot(c, id) => DeletesAs(s, p, c, id, e)
    case ResetRoot(_, _) => []
    case RevokeOld(oldId, next) => DeletesAs(s, p, next, oldId, e)
    case RecordOld(oldId, next) => Stores(p, AppendWal(Grant(oldId, "config/rotate-root", next)), e)
  }

  function ByWrite(s: State, p: Pid, w: WritePc, e: Event): seq<Call> {
    match w
    case Merge(_, _) => Stores(p, GetConfig, e)
    case Probe(c) => Verifies(s, p, c, e)
    case PutConfig(c) => Stores(p, SetConfig(c), e)
    case Remove => Stores(p, DropConfig, e)
    case ResetClient => []
  }

  /** The call that this step made and whose outcome it is, if any. */
  function Called(s: State, a: Action): seq<Call> {
    if !a.Act? || a.p !in s.procs then []
    else
      match s.procs[a.p]
      case Creds(c) => ByCreds(s, a.p, c, a.e)
      case Revoke(src, r) => ByRevoke(s, a.p, src, r, a.e)
      case Rotate(t) => ByRotate(s, a.p, t, a.e)
      case Write(w) => ByWrite(s, a.p, w, a.e)
  }

  // Some of them, for one step at a time.

  lemma MintRootCalled(s: State, p: Pid, c: Config, reply: PostReply)
    requires p in s.procs && s.procs[p] == Rotate(MintRoot(c)) && NewClient(s.env, c).Ok?
    ensures var auth := AdminAuth(s.env, c);
            Called(s, Act(p, PostReplied(reply, ""))) ==
            [Call(p, PostToken(auth, "write", ROOT_DESCRIPTION, 0), Answered(reply) && Creates(s.aap, auth, reply))]
  {
    hide NewClient; hide Creates; hide Answered;
  }

  lemma DeleteCalled(s: State, p: Pid, c: Config, id: int, reply: DeleteReply)
    requires p in s.procs && NewClient(s.env, c).Ok?
    requires match s.procs[p]
             case Rotate(CleanupRoot(d, i)) => d == c && i == id
             case Rotate(RevokeOld(i, d)) => d == c && i == id
             case Creds(Undo(q, i, _)) => q.config == c && i == id
             case Creds(DropUnlogged(q, i)) => q.config == c && i == id
             case Creds(UndoCommit(q, i, _)) => q.config == c && i == id
             case _ => false
    ensures var auth := AdminAuth(s.env, c);
            Called(s, Act(p, DeleteReplied(reply))) == [Call(p, DeleteToken(auth, id), DeleteConfirmed(s.aap, auth,
                id, reply))]
  {
    hide NewClient; hide MayDelete;
  }

  lemma StorageCalled(s: State, p: Pid, query: Query, ok: bool)
    requires p in s.procs
    requires match s.procs[p]
             case Rotate(LoadRoot) => query == GetConfig
             case Rotate(PutRoot(_, next)) => query == SetConfig(next)
             case Rotate(RecordOld(i, next)) => query == AppendWal(Grant(i, "config/rotate-root", next))
             case Write(Merge(_, _)) => query == GetConfig
             case Write(PutConfig(c)) => query == SetConfig(c)
             case Write(Remove) => query == DropConfig
             case Revoke(_, LoadClient(_, _)) => query == GetConfig && s.client.None?
             case Creds(ReadConfig(_, _)) => query == GetConfig
             case Creds(PutWal(q, i)) => query == AppendWal(Grant(i, q.name, q.config))
             case Creds(UndoWal(_, _, w)) => query == EraseWal(w)
             case Creds(Commit(_, _, w)) => query == EraseWal(w)
             case Revoke(src, Revoked(_)) => query == DiscardRecord(src)
             case _ => false
    ensures Called(s, Act(p, if ok then Succeeds else Fails)) == [Call(p, query, ok)]
  {
  }

  lemma MintCalled(s: State, p: Pid, q: Request, reply: PostReply, requestId: string)
    requires p in s.procs && s.procs[p] == Creds(Mint(q)) && NewClient(s.env, q.config).Ok?
    requires IsRequestId(requestId) && requestId !in s.markers
    ensures var auth := MintAuth(s.env, q);
            Called(s, Act(p, PostReplied(reply, requestId))) ==
            [Call(p, PostToken(auth, q.role.scope, MintDescription(q.config.tokenDescriptionPrefix,
                q.role.description, requestId), q.application),
                  Answered(reply) && Creates(s.aap, auth, reply))]
  {
    hide NewClient; hide Creates; hide Answered; hide MintDescription; hide MintAuth;
  }

  lemma ListCalled(s: State, p: Pid, rows: Option<seq<Row>>)
    requires p in s.procs && s.procs[p].Creds? && s.procs[p].c.SweepList?
    requires rows.Some? ==> Works(s.aap, s.procs[p].c.auth) && Truthful(s.aap, rows.value)
    ensures Called(s, Act(p, if rows.Some? then Listing(rows.value) else Fails)) ==
            [Call(p, GetTokens(s.procs[p].c.auth), rows.Some?)]
  {
    hide Works; hide Truthful;
  }

  lemma MarkerCalled(s: State, p: Pid)
    requires p in s.procs && s.procs[p].Creds? && s.procs[p].c.Mint?
    ensures Called(s, Act(p, Fails)) == [Call(p, DrawMarker, false)]
  {
  }

  lemma NothingCalled(s: State, p: Pid, e: Event)
    requires p in s.procs
    ensures match s.procs[p]
            case Revoke(_, r) =>
              r.CheckCache? || r.AwaitLock? || r.StoreClient? || (r.LoadClient? && s.client.Some?) ==> Called(s, Act(p, e)) == []
            case Rotate(t) => t.ResetRoot? ==> Called(s, Act(p, e)) == []
            case Write(w) => w.ResetClient? ==> Called(s, Act(p, e)) == []
            case Creds(c) => c.Respond? ==> Called(s, Act(p, e)) == []
  {
  }

  /** Every call of a run, in order. */
  function CallsOf(s0: State, log: seq<Action>): seq<Call> {
    if log == [] then [] else CallsOf(s0, log[..|log| - 1]) + Called(Run(s0, log[..|log| - 1]), log[|log| - 1])
  }

  lemma OneMoreCall(s0: State, log: seq<Action>, a: Action)
    ensures CallsOf(s0, log + [a]) == CallsOf(s0, log) + Called(Run(s0, log), a)
  {
    hide Called; hide Run;
    assert (log + [a])[..|log|] == log;
  }

  // ----- What was sent since

  /** After the first `before` calls, this one was made. */
  ghost predicate Sent(calls: seq<Call>, before: nat, call: Call) { exists k :: before <= k < |calls| && calls[k] == call }

  /** After the first `before` calls, one of operation p's returned an error. */
  ghost predicate CallFailed(calls: seq<Call>, before: nat, p: Pid) {
    exists k :: before <= k < |calls| && calls[k].p == p && !calls[k].ok
  }

  lemma SentLast(calls: seq<Call>, before: nat, call: Call)
    requires before <= |calls|
    ensures Sent(calls + [call], before, call)
    ensures !call.ok ==> CallFailed(calls + [call], before, call.p)
  {
    assert (calls + [call])[|calls|] == call;
  }

  lemma SentStays(past: seq<Call>, calls: seq<Call>, before: nat, earlier: nat, call: Call)
    requires past <= calls && earlier <= before && Sent(past, before, call)
    ensures Sent(calls, earlier, call)
  {
    var k :| before <= k < |past| && past[k] == call;
    assert calls[k] == call;
  }

  lemma SentFailed(calls: seq<Call>, before: nat, call: Call)
    requires Sent(calls, before, call) && !call.ok
    ensures CallFailed(calls, before, call.p)
  {
  }

  lemma FailedStays(past: seq<Call>, calls: seq<Call>, before: nat, earlier: nat, p: Pid)
    requires past <= calls && earlier <= before && CallFailed(past, before, p)
    ensures CallFailed(calls, earlier, p)
  {
    var k :| before <= k < |past| && past[k].p == p && !past[k].ok;
    assert calls[k] == past[k];
  }
}
