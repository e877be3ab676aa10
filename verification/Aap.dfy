/** AAP as the engine relies on it: ids are never reused, a bearer credential works while its token is
    live, a token belongs to whoever minted it, and a DELETE of a missing id answers 404. */
module Aap {
  import opened Wrappers
  import opened Decimal
  import opened Client
  import opened Marker

  /** `marker` records which request a token was minted for; None marks a root token. */
  datatype Token = Token(secret: string, owner: int, application: int, description: string, marker: Option<string>)

  datatype Server = Server(
    nextId: int,
    tokens: map<int, Token>,                  // every token the engine ever minted
    live: set<int>,                           // those not yet deleted
    secrets: map<string, int>,                // secret -> id
    operators: map<string, int>,              // tokens issued out of band -> identity
    accounts: map<(string, string), int>,     // basic-auth pairs -> identity
    privileged: set<int>)                     // identities that may delete any token

  function IdentityOf(a: Server, auth: Auth): Option<int> {
    match auth
    case Basic(u, p) => if (u, p) in a.accounts then Some(a.accounts[(u, p)]) else None
    case Bearer(t) =>
      if t in a.secrets then
        var id := a.secrets[t];
        if id in a.live && id in a.tokens then Some(a.tokens[id].owner) else None
      else if t in a.operators then Some(a.operators[t])
      else None
  }

  predicate Works(a: Server, auth: Auth) { IdentityOf(a, auth).Some? }

  /** A DELETE with this credential is answered 2xx or 404. */
  predicate MayDelete(a: Server, auth: Auth, id: int) {
    && Works(a, auth)
    && (id in a.live ==>
          || IdentityOf(a, auth).value in a.privileged
          || (id in a.tokens && a.tokens[id].owner == IdentityOf(a, auth).value))
  }

  /** How a request to AAP turns out; a lost reply reaches the engine as a transport error. */
  datatype DeleteReply = Deleted | DeletedLost | DeleteFailed
  datatype PostReply = Created(secret: string, application: int) | CreatedLost(secret: string, application: int)
      | Refused | Lost

  function Delete(a: Server, auth: Auth, id: int, reply: DeleteReply): (b: Server)
    ensures b == a.(live := b.live)
  {
    if MayDelete(a, auth, id) && !reply.DeleteFailed? then a.(live := a.live - {id}) else a
  }

  /** Whether RevokeToken returns nil. */
  predicate DeleteConfirmed(a: Server, auth: Auth, id: int, reply: DeleteReply) {
    MayDelete(a, auth, id) && reply.Deleted?
  }

  predicate Creates(a: Server, auth: Auth, reply: PostReply) {
    && (reply.Created? || reply.CreatedLost?)
    && Works(a, auth) && a.nextId <= MAX_INT64
    && reply.secret != "" && reply.secret !in a.secrets && reply.secret !in a.operators
  }

  /** Whether any answer to the POST reaches the engine. */
  predicate Answered(reply: PostReply) { reply.Created? || reply.Refused? }

  function Post(a: Server, auth: Auth, description: string, marker: Option<string>, reply: PostReply): Server {
    if Creates(a, auth, reply) then
      a.(nextId := a.nextId + 1,
         live := a.live + {a.nextId},
         secrets := a.secrets[reply.secret := a.nextId],
         tokens := a.tokens[a.nextId := Token(reply.secret, IdentityOf(a, auth).value, reply.application,
             description, marker)])
    else a
  }

  /** A row of the tokens listing. */
  datatype Row = Row(id: int, description: string)

  /** A row with an id the engine minted describes that token, which is live; any other row is a token issued
      outside the engine, and no such token carries a request marker. The listing may be filtered or cut
      short in any way. */
  predicate Truthful(a: Server, rows: seq<Row>) {
    forall i :: 0 <= i < |rows| ==>
      if rows[i].id in a.tokens then rows[i].id in a.live && a.tokens[rows[i].id].description == rows[i].description
      else !CarriesMarker(rows[i].description)
  }

  /** The ids tokenIDsByDescription returns. */
  function IdsWithDescription(rows: seq<Row>, description: string): seq<int> {
    if rows == [] then []
    else
      var last := rows[|rows| - 1];
      IdsWithDescription(rows[..|rows| - 1], description) +
      if last.description == description && last.id > 0 then [last.id] else []
  }

  lemma {:induction false} IdsWithDescriptionMeaning(rows: seq<Row>, description: string, id: int)
    ensures id in IdsWithDescription(rows, description) <==> Row(id, description) in rows && id > 0
  {
    if rows != [] {
      var init, last := rows[..|rows| - 1], rows[|rows| - 1];
      assert rows == init + [last];
      IdsWithDescriptionMeaning(init, description, id);
    }
  }

  method TokenIdsByDescription(rows: seq<Row>, description: string) returns (ids: seq<int>)
    ensures ids == IdsWithDescription(rows, description)
  {
    ids := [];
    for i := 0 to |rows|
      invariant ids == IdsWithDescription(rows[..i], description)
    {
      if rows[i].description == description && rows[i].id > 0 {
        ids := ids + [rows[i].id];
      }
      assert rows[..i + 1][..i] == rows[..i];
    }
    assert rows[..|rows|] == rows;
  }

  predicate ServerOk(a: Server, markers: set<string>) {
    && a.nextId > 0
    && a.live <= a.tokens.Keys
    && (forall id :: id in a.tokens ==> 0 < id < a.nextId && IsInt64(id))
    && (forall id :: id in a.tokens ==>
          a.tokens[id].secret != "" && a.tokens[id].secret in a.secrets && a.secrets[a.tokens[id].secret] == id)
    && (forall t :: t in a.secrets ==> a.secrets[t] in a.tokens)
    && a.operators.Keys !! a.secrets.Keys
    && (forall id :: id in a.tokens ==>
          match a.tokens[id].marker
          case None => a.tokens[id].description == ROOT_DESCRIPTION
          case Some(m) => m in markers && Marked(a.tokens[id].description, m))
    && (forall i, j :: i in a.tokens && j in a.tokens && a.tokens[i].marker == a.tokens[j].marker && a.tokens[i].marker.Some? ==> i == j)
  }

  /** Deleting twice is deleting once (section 9.2.2 of RFC 9110), and a DELETE only ever removes its id. */
  lemma DeleteIsIdempotent(a: Server, first: Auth, second: Auth, id: int, reply: DeleteReply)
    requires DeleteConfirmed(a, first, id, Deleted)
    ensures var b := Delete(a, first, id, Deleted);
            && Delete(b, second, id, reply) == b
            && b.live == a.live - {id}
            && (Works(b, second) ==> DeleteConfirmed(b, second, id, Deleted))
  {
  }

  // ----- Recovery after an ambiguous create

  /** revokeTokensByDescription: true if every matching row was deleted. */
  class Connection {
    var server: Server
    const auth: Auth

    constructor (server: Server, auth: Auth)
      ensures this.server == server && this.auth == auth
    {
      this.server := server;
      this.auth := auth;
    }

    /** Any reply may come back. */
    method RevokeToken(id: int) returns (ok: bool, ghost reply: DeleteReply)
      modifies this
      ensures server == Delete(old(server), auth, id, reply)
      ensures ok == DeleteConfirmed(old(server), auth, id, reply)
    {
      var answer: DeleteReply := *;
      reply := answer;
      ok := DeleteConfirmed(server, auth, id, answer);
      server := Delete(server, auth, id, answer);
    }

    /** `listing` is what AAP answers to the filtered GET; None stands for any failure of that call. */
    method RevokeTokensByDescription(description: string, listing: Option<seq<Row>>) returns (ok: bool)
      modifies this
      ensures server == old(server).(live := server.live)
      ensures old(server).live - DescribedIds(listing, description) <= server.live <= old(server).live
      ensures ok ==> listing.Some? && server.live == old(server).live - DescribedIds(listing, description)
    {
      if listing.None? { return false; }
      var ids := TokenIdsByDescription(listing.value, description);
      ghost var doomed := DescribedIds(listing, description);
      var i := 0;
      while i < |ids|
        invariant 0 <= i <= |ids|
        invariant server == old(server).(live := server.live)
        invariant old(server).live - doomed <= server.live <= old(server).live
        invariant forall j :: 0 <= j < i ==> ids[j] !in server.live
      {
        var deleted, _ := RevokeToken(ids[i]);
        if !deleted { return false; }
        i := i + 1;
      }
      return true;
    }
  }

  function DescribedIds(listing: Option<seq<Row>>, description: string): set<int> {
    match listing
    case None => {}
    case Some(rows) => var ids := IdsWithDescription(rows, description); set id | id in ids
  }

  /** A sweep that returns nil, under any truthful listing, has deleted only tokens of this description;
      none is left if and only if the listing held all of them. If the description carries a request marker,
      no token issued outside the engine was touched either. */
  lemma SweepIsExact(a: Server, after: set<int>, rows: seq<Row>, description: string)
    requires Truthful(a, rows) && a.live <= a.tokens.Keys && (forall id :: id in a.tokens ==> id > 0)
    requires after == a.live - DescribedIds(Some(rows), description)
    ensures forall id :: id in a.live && a.tokens[id].description != description ==> id in after
    ensures (forall id :: id in after ==> a.tokens[id].description != description) <==>
            (forall id :: id in a.live && a.tokens[id].description == description ==> Row(id, description) in rows)
    ensures CarriesMarker(description) ==> DescribedIds(Some(rows), description) <= a.live
  {
    hide CarriesMarker;
    forall id
      ensures id in DescribedIds(Some(rows), description) <==> Row(id, description) in rows && id > 0
    {
      IdsWithDescriptionMeaning(rows, description, id);
    }
    forall id | Row(id, description) in rows && (id in a.tokens || CarriesMarker(description))
      ensures id in a.live && a.tokens[id].description == description
    {
      var i :| 0 <= i < |rows| && rows[i] == Row(id, description);
    }
    if CarriesMarker(description) {
      forall id | id in DescribedIds(Some(rows), description)
        ensures id in a.live
      {
        assert Row(id, description) in rows;
      }
    }
  }
}
