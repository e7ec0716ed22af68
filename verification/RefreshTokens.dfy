/** Refresh-token families: rotation, reuse detection and logout.  A request's own transaction
    rolls back when it ends in an error; reuse detection commits in a transaction of its own. */
module RefreshTokens {
  import opened Common

  type Id = string
  type Time = int

  /** A refresh token row; `serial` is its place in the order of insertion. */
  datatype Token = Token(userId: Id, family: Id, expiresAt: Time, revokedAt: Option<Time>, serial: nat)

  /** The refresh_tokens table, the users that are active, and the number of rows ever inserted. */
  datatype State = State(rows: map<Id, Token>, active: set<Id>, issued: nat)

  /** A token that decodes: its row's id and its subject. */
  datatype Jwt = Jwt(id: Id, sub: Id)

  predicate Live(rows: map<Id, Token>, id: Id) {
    id in rows && rows[id].revokedAt.None?
  }

  predicate Known(rows: map<Id, Token>, jwt: Jwt) {
    jwt.id in rows && rows[jwt.id].userId == jwt.sub
  }

  /** The row the rotating UPDATE hits. */
  predicate Exchangeable(rows: map<Id, Token>, jwt: Jwt, now: Time) {
    Known(rows, jwt) && Live(rows, jwt.id) && rows[jwt.id].expiresAt > now
  }

  function Revoke(rows: map<Id, Token>, id: Id, now: Time): map<Id, Token>
    requires id in rows
  {
    rows[id := rows[id].(revokedAt := Some(now))]
  }

  function RevokeFamily(rows: map<Id, Token>, family: Id, now: Time): map<Id, Token> {
    map i | i in rows ::
      if rows[i].family == family && rows[i].revokedAt.None? then rows[i].(revokedAt := Some(now)) else rows[i]
  }

  function Issue(st: State, userId: Id, family: Id, id: Id, expiresAt: Time): State {
    st.(rows := st.rows[id := Token(userId, family, expiresAt, None, st.issued)], issued := st.issued + 1)
  }

  /** A replayed token: known, and revoked before. */
  predicate Replayed(rows: map<Id, Token>, jwt: Jwt) {
    Known(rows, jwt) && rows[jwt.id].revokedAt.Some?
  }

  function DetectReuse(rows: map<Id, Token>, jwt: Jwt, now: Time): map<Id, Token> {
    if Replayed(rows, jwt) then RevokeFamily(rows, rows[jwt.id].family, now) else rows
  }

  /** A rotation request: the committed state after it, and its outcome. */
  function Rotate(st: State, jwt: Option<Jwt>, now: Time, id: Id, expiresAt: Time): (State, Result<Id>) {
    if jwt.None? then (st, Err(Unauthorized))
    else if !Exchangeable(st.rows, jwt.value, now) then
      (st.(rows := DetectReuse(st.rows, jwt.value, now)), Err(Unauthorized))
    else if jwt.value.sub !in st.active then (st, Err(Unauthorized))
    else
      var row := st.rows[jwt.value.id];
      (Issue(st.(rows := Revoke(st.rows, jwt.value.id, now)), jwt.value.sub, row.family, id, expiresAt), Ok(id))
  }

  function Logout(st: State, jwt: Option<Jwt>, now: Time): State {
    if jwt.Some? && Known(st.rows, jwt.value) && Live(st.rows, jwt.value.id)
    then st.(rows := Revoke(st.rows, jwt.value.id, now)) else st
  }

  // --------------------------------------------------- the requests, by the columns

  /** The token's row exists, is of its subject, unrevoked and unexpired, and the user is active. */
  predicate Honoured(st: State, jwt: Jwt, now: Time) {
    && jwt.id in st.rows
    && st.rows[jwt.id].userId == jwt.sub
    && st.rows[jwt.id].revokedAt == None
    && now < st.rows[jwt.id].expiresAt
    && jwt.sub in st.active
  }

  /** The old row is revoked now, and one row is new: unrevoked, of the same user and family, with the
      given expiry. */
  ghost predicate Exchanged(o: State, st: State, jwt: Jwt, now: Time, id: Id, expiresAt: Time)
    requires jwt.id in o.rows
  {
    && st.active == o.active && st.issued == o.issued + 1
    && st.rows.Keys == o.rows.Keys + {id} && id in st.rows
    && st.rows[id] == Token(jwt.sub, o.rows[jwt.id].family, expiresAt, None, o.issued)
    && forall i :: i in o.rows && i != id ==>
         st.rows[i] == if i == jwt.id then o.rows[i].(revokedAt := Some(now)) else o.rows[i]
  }

  /** All unrevoked rows of the family, and no others, are revoked now. */
  ghost predicate FamilyRevoked(a: map<Id, Token>, b: map<Id, Token>, family: Id, now: Time) {
    && a.Keys == b.Keys
    && forall i :: i in a ==>
         b[i] == if a[i].family == family && a[i].revokedAt == None then a[i].(revokedAt := Some(now)) else a[i]
  }

  /** A refused token changes nothing, unless it is its subject's own and was revoked before: then its
      family is revoked. */
  ghost predicate Refused(o: State, st: State, jwt: Jwt, now: Time) {
    && st == o.(rows := st.rows)
    && if jwt.id in o.rows && o.rows[jwt.id].userId == jwt.sub && o.rows[jwt.id].revokedAt != None
       then FamilyRevoked(o.rows, st.rows, o.rows[jwt.id].family, now) else st.rows == o.rows
  }

  /** A rotation request succeeds exactly with a token that is to be honoured. */
  ghost predicate Rotated(o: State, st: State, out: Result<Id>, jwt: Option<Jwt>, now: Time, id: Id, expiresAt: Time) {
    match jwt
    case None => st == o && out == Err(Unauthorized)
    case Some(j) =>
      if Honoured(o, j, now) then out == Ok(id) && Exchanged(o, st, j, now, id, expiresAt)
      else out == Err(Unauthorized) && Refused(o, st, j, now)
  }

  lemma RotationIs(o: State, jwt: Option<Jwt>, now: Time, id: Id, expiresAt: Time)
    ensures var (st, out) := Rotate(o, jwt, now, id, expiresAt);
      Rotated(o, st, out, jwt, now, id, expiresAt)
  {
  }

  lemma ReuseIs(rows: map<Id, Token>, jwt: Jwt, now: Time)
    ensures var rows2 := DetectReuse(rows, jwt, now);
      if jwt.id in rows && rows[jwt.id].userId == jwt.sub && rows[jwt.id].revokedAt != None
      then FamilyRevoked(rows, rows2, rows[jwt.id].family, now) else rows2 == rows
  {
  }

  /** Logout revokes the token now if it is its subject's own and unrevoked, expired or not, and changes
      nothing else. */
  ghost predicate SignedOut(o: State, st: State, jwt: Option<Jwt>, now: Time) {
    st ==
      if jwt.Some? && jwt.value.id in o.rows && o.rows[jwt.value.id].userId == jwt.value.sub
         && o.rows[jwt.value.id].revokedAt == None
      then o.(rows := o.rows[jwt.value.id := o.rows[jwt.value.id].(revokedAt := Some(now))]) else o
  }

  lemma LogoutIs(o: State, jwt: Option<Jwt>, now: Time)
    ensures SignedOut(o, Logout(o, jwt, now), jwt, now)
  {
  }

  /** The committed tables, and the requests that work on them. */
  class TokenStore {
    var rows: map<Id, Token>
    var active: set<Id>
    var issued: nat

    constructor ()
      ensures Snapshot() == State(map[], {}, 0)
    {
      rows, active, issued := map[], {}, 0;
    }

    function Snapshot(): State
      reads this
    {
      State(rows, active, issued)
    }

    method IssueTokenPair(userId: Id, family: Option<Id>, newFamily: Id, id: Id, expiresAt: Time)
      modifies this
      ensures Snapshot() ==
                Issue(old(Snapshot()), userId, if Blank(family) then newFamily else family.value, id, expiresAt)
      ensures active == old(active) && issued == old(issued) + 1
      ensures rows == old(rows)[id :=
                Token(userId, if family.Some? && family.value != "" then family.value else newFamily, expiresAt, None,
                      old(issued))]
    {
      var f := if Blank(family) then newFamily else family.value;
      rows := rows[id := Token(userId, f, expiresAt, None, issued)];
      issued := issued + 1;
    }

    /** Runs in its own transaction, which commits. */
    method DetectRefreshReuse(jwt: Jwt, now: Time)
      modifies this`rows
      ensures rows == DetectReuse(old(rows), jwt, now)
      ensures if jwt.id in old(rows) && old(rows)[jwt.id].userId == jwt.sub && old(rows)[jwt.id].revokedAt != None
        then FamilyRevoked(old(rows), rows, old(rows)[jwt.id].family, now) else rows == old(rows)
    {
      if !Known(rows, jwt) || rows[jwt.id].revokedAt.None? {
        return;
      }
      var family := rows[jwt.id].family;
      rows := map i | i in rows ::
        if rows[i].family == family && rows[i].revokedAt.None? then rows[i].(revokedAt := Some(now)) else rows[i];
    }

    /** The request works on its own version of the rows, which it commits or drops at its end. */
    method RotateRefreshToken(jwt: Option<Jwt>, now: Time, newFamily: Id, id: Id, expiresAt: Time)
      returns (out: Result<Id>)
      requires forall i :: i in rows ==> rows[i].family != ""
      modifies this
      ensures (Snapshot(), out) == Rotate(old(Snapshot()), jwt, now, id, expiresAt)
      ensures Rotated(old(Snapshot()), Snapshot(), out, jwt, now, id, expiresAt)
    {
      RotationIs(Snapshot(), jwt, now, id, expiresAt);
      hide Rotated, FamilyRevoked;
      if jwt.None? {
        return Err(Unauthorized);
      }
      var mine := rows;
      var hit := Exchangeable(mine, jwt.value, now);
      if hit {
        mine := mine[jwt.value.id := mine[jwt.value.id].(revokedAt := Some(now))];
      }
      if !hit {
        DetectRefreshReuse(jwt.value, now);
        return Err(Unauthorized);
      }
      if jwt.value.sub !in active {
        return Err(Unauthorized);
      }
      rows := mine;
      IssueTokenPair(jwt.value.sub, Some(rows[jwt.value.id].family), newFamily, id, expiresAt);
      out := Ok(id);
    }

    method RevokeRefreshToken(jwt: Option<Jwt>, now: Time)
      modifies this
      ensures Snapshot() == Logout(old(Snapshot()), jwt, now)
      ensures SignedOut(old(Snapshot()), Snapshot(), jwt, now)
    {
      if jwt.Some? && Known(rows, jwt.value) && rows[jwt.value.id].revokedAt.None? {
        rows := rows[jwt.value.id := rows[jwt.value.id].(revokedAt := Some(now))];
      }
    }
  }

  // -------------------------------------------------------------------------- runs

  datatype Event =
    | Login(userId: Id, family: Id, id: Id, expiresAt: Time)
    | Refresh(jwt: Option<Jwt>, now: Time, id: Id, expiresAt: Time)
    | SignOut(jwt: Option<Jwt>, now: Time)
    | SetActive(userId: Id, on: bool)

  /** `exchanged` lists the tokens successfully exchanged so far. */
  datatype World = World(st: State, exchanged: seq<Id>)

  const START: World := World(State(map[], {}, 0), [])

  /** Ids of new rows and new families are fresh. */
  predicate Enabled(w: World, e: Event) {
    match e
    case Login(userId, family, id, _) =>
      userId in w.st.active && id !in w.st.rows && family != ""
        && forall i :: i in w.st.rows ==> w.st.rows[i].family != family
    case Refresh(_, _, id, _) => id !in w.st.rows
    case _ => true
  }

  function Step(w: World, e: Event): World {
    match e
    case Login(userId, family, id, expiresAt) => w.(st := Issue(w.st, userId, family, id, expiresAt))
    case Refresh(jwt, now, id, expiresAt) =>
      var (st, out) := Rotate(w.st, jwt, now, id, expiresAt);
      World(st, if out.Ok? then w.exchanged + [jwt.value.id] else w.exchanged)
    case SignOut(jwt, now) => w.(st := Logout(w.st, jwt, now))
    case SetActive(userId, on) =>
      w.(st := w.st.(active := if on then w.st.active + {userId} else w.st.active - {userId}))
  }

  function Apply(w: World, e: Event): World { if Enabled(w, e) then Step(w, e) else w }

  function Exec(w: World, es: seq<Event>): World {
    if es == [] then w else Apply(Exec(w, es[..|es| - 1]), es[|es| - 1])
  }

  // --------------------------------------------------------------------- the invariant

  /** A family has one user and at most one live token, and that token is its newest. */
  ghost predicate FamiliesOk(rows: map<Id, Token>) {
    forall a, b :: a in rows && b in rows && rows[a].family == rows[b].family ==>
      && rows[a].userId == rows[b].userId
      && (Live(rows, a) ==> rows[b].serial <= rows[a].serial)
      && (Live(rows, a) && Live(rows, b) ==> a == b)
  }

  ghost predicate RowsOk(st: State) {
    forall i :: i in st.rows ==> st.rows[i].serial < st.issued && st.rows[i].family != ""
  }

  /** Exchanged tokens are revoked, and none is listed twice. */
  ghost predicate ExchangesOk(w: World) {
    && (forall n :: 0 <= n < |w.exchanged| ==> w.exchanged[n] in w.st.rows && !Live(w.st.rows, w.exchanged[n]))
    && (forall m, n :: 0 <= m < n < |w.exchanged| ==> w.exchanged[m] != w.exchanged[n])
  }

  /** No row goes away, no revocation is undone, and nothing else about a row changes. */
  ghost predicate RowsStep(a: map<Id, Token>, b: map<Id, Token>) {
    forall i :: i in a ==>
      i in b && b[i] == a[i].(revokedAt := b[i].revokedAt) && (a[i].revokedAt.Some? ==> b[i].revokedAt.Some?)
  }

  lemma StepKeepsRows(w: World, e: Event)
    ensures RowsStep(w.st.rows, Apply(w, e).st.rows)
  {
  }

  /** A new row is issued at login, in a fresh family, or by exchanging the live token of its
      family. */
  lemma NewRow(w: World, e: Event, id: Id)
    requires id !in w.st.rows && id in Apply(w, e).st.rows
    ensures Enabled(w, e) && Apply(w, e).st.rows[id].serial == w.st.issued && Apply(w, e).st.issued == w.st.issued + 1
    ensures Live(Apply(w, e).st.rows, id)
    ensures
      || (e.Login? && Apply(w, e).st.rows[id].family == e.family)
      || (e.Refresh? && e.jwt.Some? && Live(w.st.rows, e.jwt.value.id) && !Live(Apply(w, e).st.rows, e.jwt.value.id)
          && Apply(w, e).st.rows[id].family == w.st.rows[e.jwt.value.id].family
          && Apply(w, e).st.rows[id].userId == w.st.rows[e.jwt.value.id].userId)
    ensures forall i :: i in Apply(w, e).st.rows && i !in w.st.rows ==> i == id
  {
  }

  /** The newest row of its family, and its only live one. */
  ghost predicate Newest(rows: map<Id, Token>, id: Id)
    requires id in rows
  {
    Live(rows, id) && forall b :: b in rows && rows[b].family == rows[id].family ==>
      rows[b].userId == rows[id].userId && rows[b].serial <= rows[id].serial && (Live(rows, b) ==> b == id)
  }

  lemma NewRowIsNewest(w: World, e: Event, id: Id)
    requires FamiliesOk(w.st.rows) && RowsOk(w.st) && id !in w.st.rows && id in Apply(w, e).st.rows
    ensures Newest(Apply(w, e).st.rows, id)
  {
    NewRow(w, e, id);
    StepKeepsRows(w, e);
    var (rows, rows2) := (w.st.rows, Apply(w, e).st.rows);
    var from := if e.Refresh? && e.jwt.Some? then e.jwt.value.id else id;
    var loggedIn := e.Login?;
    assert loggedIn ==> forall i :: i in rows ==> rows[i].family != rows2[id].family;
    hide Apply, Enabled;
    forall b | b in rows2 && rows2[b].family == rows2[id].family
      ensures rows2[b].userId == rows2[id].userId && rows2[b].serial <= rows2[id].serial && (Live(rows2, b) ==> b == id)
    {
      if b != id { assert b in rows; }
    }
  }

  lemma FamiliesKept(a: map<Id, Token>, b: map<Id, Token>)
    requires FamiliesOk(a) && RowsStep(a, b) && forall id :: id in b && id !in a ==> Newest(b, id)
    ensures FamiliesOk(b)
  {
  }

  lemma StepFamilies(w: World, e: Event)
    requires FamiliesOk(w.st.rows) && RowsOk(w.st)
    ensures FamiliesOk(Apply(w, e).st.rows)
  {
    hide Apply, FamiliesOk, RowsOk, Newest;
    StepKeepsRows(w, e);
    var rows2 := Apply(w, e).st.rows;
    forall id | id in rows2 && id !in w.st.rows
      ensures Newest(rows2, id)
    {
      NewRowIsNewest(w, e, id);
    }
    hide RowsStep;
    FamiliesKept(w.st.rows, rows2);
  }

  lemma StepRowsOk(w: World, e: Event)
    requires RowsOk(w.st)
    ensures RowsOk(Apply(w, e).st)
  {
  }

  lemma StepExchanges(w: World, e: Event)
    requires ExchangesOk(w)
    ensures ExchangesOk(Apply(w, e))
  {
    StepKeepsRows(w, e);
  }

  ghost predicate WorldOk(w: World) {
    FamiliesOk(w.st.rows) && RowsOk(w.st) && ExchangesOk(w)
  }

  lemma {:induction false} RunOk(es: seq<Event>)
    ensures WorldOk(Exec(START, es))
  {
    if es != [] {
      var w, e := Exec(START, es[..|es| - 1]), es[|es| - 1];
      RunOk(es[..|es| - 1]);
      hide Apply, FamiliesOk, RowsOk, ExchangesOk;
      StepFamilies(w, e);
      StepRowsOk(w, e);
      StepExchanges(w, e);
    }
  }

  // --------------------------------------------------------------------- main results

  /** In every reachable state a family has one user and at most one unrevoked token, which is
      the family's newest. */
  lemma OneLiveNewestToken(es: seq<Event>, a: Id, b: Id)
    requires var rows := Exec(START, es).st.rows;
      a in rows && b in rows && rows[a].family == rows[b].family
    ensures var rows := Exec(START, es).st.rows;
      && rows[a].userId == rows[b].userId
      && (rows[a].revokedAt.None? && b != a ==> rows[b].revokedAt.Some? && rows[b].serial <= rows[a].serial)
  {
    RunOk(es);
    hide Exec, RowsOk, ExchangesOk;
  }

  /** Each token is exchanged successfully at most once over any run. */
  lemma ExchangedAtMostOnce(es: seq<Event>)
    ensures var done := Exec(START, es).exchanged;
      forall m, n :: 0 <= m < n < |done| ==> done[m] != done[n]
  {
    RunOk(es);
    hide Exec, RowsOk, FamiliesOk;
  }

  /** Over any run, a token is exchanged exactly by presenting it while it is its active user's own,
      unrevoked and unexpired: nothing else exchanges one, and no such token is turned away. */
  lemma ExchangedExactlyWhenHonoured(es: seq<Event>, e: Event)
    ensures var w := Exec(START, es);
      Apply(w, e).exchanged ==
        if e.Refresh? && e.id !in w.st.rows && e.jwt.Some? && Honoured(w.st, e.jwt.value, e.now)
        then w.exchanged + [e.jwt.value.id] else w.exchanged
  {
    hide Exec, Issue, DetectReuse;
  }

  /** The family has no unrevoked token left. */
  ghost predicate Burned(rows: map<Id, Token>, family: Id) {
    && (exists i :: i in rows && rows[i].family == family)
    && (forall i :: i in rows && rows[i].family == family ==> rows[i].revokedAt.Some?)
  }

  /** The step presents a revoked token of the family for rotation. */
  predicate Replays(w: World, e: Event, family: Id) {
    e.Refresh? && Enabled(w, e) && e.jwt.Some? && Replayed(w.st.rows, e.jwt.value)
      && w.st.rows[e.jwt.value.id].family == family
  }

  /** Presenting a revoked token burns its family, although the request itself fails. */
  lemma ReplayBurns(w: World, e: Event, family: Id)
    requires Replays(w, e, family)
    ensures Rotate(w.st, e.jwt, e.now, e.id, e.expiresAt).1 == Err(Unauthorized)
    ensures Burned(Apply(w, e).st.rows, family)
  {
    var id := e.jwt.value.id;
    assert id in Apply(w, e).st.rows && Apply(w, e).st.rows[id].family == family;
  }

  lemma StepBurned(w: World, e: Event, family: Id)
    requires Burned(w.st.rows, family)
    ensures Burned(Apply(w, e).st.rows, family)
  {
    StepKeepsRows(w, e);
    var rows2 := Apply(w, e).st.rows;
    var i :| i in w.st.rows && w.st.rows[i].family == family;
    assert i in rows2 && rows2[i].family == family;
    forall id | id in rows2 && rows2[id].family == family
      ensures rows2[id].revokedAt.Some?
    {
      if id !in w.st.rows { NewRow(w, e, id); }
    }
  }

  /** Once a revoked token has been presented for rotation, its family never again has an
      unrevoked token, and no token of it is ever exchanged again. */
  lemma {:induction false} BurnedForever(es: seq<Event>, e: Event, family: Id, later: seq<Event>)
    requires Replays(Exec(START, es), e, family)
    ensures var w := Exec(Apply(Exec(START, es), e), later);
      && Burned(w.st.rows, family)
      && forall jwt: Jwt, now, id, expiresAt :: jwt.id in w.st.rows && w.st.rows[jwt.id].family == family ==>
           Rotate(w.st, Some(jwt), now, id, expiresAt).1 == Err(Unauthorized)
  {
    var w1 := Apply(Exec(START, es), e);
    if later == [] {
      ReplayBurns(Exec(START, es), e, family);
    } else {
      BurnedForever(es, e, family, later[..|later| - 1]);
      StepBurned(Exec(w1, later[..|later| - 1]), later[|later| - 1], family);
    }
  }

  ghost predicate HasLive(rows: map<Id, Token>, family: Id) {
    exists i :: Live(rows, i) && rows[i].family == family
  }

  /** The step is a logout with the family's live token. */
  predicate SignsOut(w: World, e: Event, family: Id) {
    e.SignOut? && e.jwt.Some? && Known(w.st.rows, e.jwt.value) && Live(w.st.rows, e.jwt.value.id)
    && w.st.rows[e.jwt.value.id].family == family
  }

  /** A session ends exactly by logout with its live token or by replay of a revoked one:
      nothing else, and in particular no exchange, leaves a live family without a live token. */
  lemma SessionEndsOnlyByLogoutOrReplay(es: seq<Event>, e: Event, family: Id)
    requires HasLive(Exec(START, es).st.rows, family)
    ensures !HasLive(Apply(Exec(START, es), e).st.rows, family) <==>
              SignsOut(Exec(START, es), e, family) || Replays(Exec(START, es), e, family)
  {
    var w := Exec(START, es);
    RunOk(es);
    hide Exec;
    var rows2 := Apply(w, e).st.rows;
    var i :| Live(w.st.rows, i) && w.st.rows[i].family == family;
    if Replays(w, e, family) {
      ReplayBurns(w, e, family);
    } else if SignsOut(w, e, family) {
      assert e.jwt.value.id == i;
    } else if e.Refresh? && Apply(w, e).exchanged != w.exchanged && e.jwt.value.id == i {
      assert Live(rows2, e.id) && rows2[e.id].family == family;
    } else {
      assert Live(rows2, i) && rows2[i].family == family;
    }
  }
}
