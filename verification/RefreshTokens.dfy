/** Refresh-token rotation (auth.service.js, auth.repo.js): requests interleave freely. */
module RefreshTokens {
  import opened Basics

  type Token = string

  datatype Row = Row(userId: string, expiresAt: int)

  // ---------------------------------------------------------------- the token table

  /** The refreshToken table; the token is its unique key. */
  class TokenTable {
    var rows: map<Token, Row>

    constructor ()
      ensures rows == map[]
    {
      rows := map[];
    }

    /** create: refused on a duplicate key. */
    method Create(token: Token, row: Row) returns (ok: bool)
      modifies this
      ensures ok <==> token !in old(rows)
      ensures rows == if ok then old(rows)[token := row] else old(rows)
    {
      ok := token !in rows;
      if ok { rows := rows[token := row]; }
    }

    method Find(token: Token) returns (row: Option<Row>)
      ensures row == if token in rows then Some(rows[token]) else None
    {
      row := if token in rows then Some(rows[token]) else None;
    }

    /** delete: fails when the row is gone. */
    method Delete(token: Token) returns (ok: bool)
      modifies this
      ensures ok <==> token in old(rows)
      ensures rows == old(rows) - {token}
    {
      ok := token in rows;
      rows := rows - {token};
    }

    method DeleteUser(userId: string)
      modifies this
      ensures rows == WithoutUser(old(rows), userId)
    {
      rows := WithoutUser(rows, userId);
    }

    /** refreshAccessToken with nothing in between; `next` and `expiresAt` are the new token's. */
    method RefreshAlone(token: Token, now: int, userFound: bool, next: Token, expiresAt: int)
      returns (ok: bool)
      modifies this
      ensures ok <==> token in old(rows) && now <= old(rows)[token].expiresAt && userFound
                      && next !in old(rows) - {token}
      ensures rows == if ok then (old(rows) - {token})[next := Row(old(rows)[token].userId, expiresAt)]
                      else old(rows) - {token}
    {
      var stored := Find(token);
      if stored.None? { return false; }
      if now > stored.value.expiresAt || !userFound {
        var _ := Delete(token);
        return false;
      }
      var deleted := Delete(token);
      if !deleted { return false; }
      ok := Create(next, Row(stored.value.userId, expiresAt));
    }
  }

  function WithoutUser(rows: map<Token, Row>, userId: string): map<Token, Row> {
    map t | t in rows && rows[t].userId != userId :: rows[t]
  }

  // ---------------------------------------------------------------- interleaved requests

  /** A refresh request between two of its awaits. */
  datatype Flight =
    | Found(token: Token, row: Row)
    | Rotating(token: Token, userId: string)

  /** A row once created, and the login or registration it descends from. */
  datatype Origin = Origin(row: Row, family: nat)

  datatype Rotation = Rotation(before: Token, after: Token, family: nat)

  datatype State = State(
    rows: map<Token, Row>,
    history: map<Token, Origin>,
    flights: map<nat, Flight>,
    log: seq<Rotation>
  )

  datatype Event =
    | SignIn(token: Token, row: Row, family: nat)
    | Find(request: nat, token: Token, answer: Option<Row>)
    | Refuse(request: nat, now: int, userFound: bool)
    | Delete(request: nat, now: int)
    | Create(request: nat, token: Token, expiresAt: int)
    | Crash(request: nat)
    | Logout(token: Token)
    | LogoutAll(userId: string)

  /** The login or registration that an issued token descends from. */
  function Family(s: State, t: Token): (family: nat)
    requires t in s.history
  {
    s.history[t].family
  }

  predicate IsRotating(s: State, r: nat) {
    r in s.flights && s.flights[r].Rotating?
  }

  /** When an event can happen. New tokens are new; a read may come from a replica that is
      behind, so it may answer with any row that ever existed, or with none. */
  predicate Possible(s: State, e: Event) {
    match e
    case SignIn(token, row, family) =>
      token !in s.history && forall t :: t in s.history ==> s.history[t].family != family
    case Find(r, token, answer) =>
      && r !in s.flights
      && (answer.Some? ==> token in s.history && s.history[token].row == answer.value)
    case Refuse(r, now, userFound) =>
      && r in s.flights && s.flights[r].Found?
      && (now > s.flights[r].row.expiresAt || !userFound)
    case Delete(r, now) =>
      r in s.flights && s.flights[r].Found? && now <= s.flights[r].row.expiresAt
    case Create(r, token, expiresAt) =>
      IsRotating(s, r) && token !in s.history && s.flights[r].token in s.history
    case Crash(r) => r in s.flights
    case Logout(token) => true
    case LogoutAll(userId) => true
  }

  /** A first token: login or registration. */
  function SignedIn(s: State, token: Token, origin: Origin): State {
    s.(rows := s.rows[token := origin.row], history := s.history[token := origin])
  }

  /** The old row goes; the request goes on to issue the next token. */
  function Deleted(s: State, r: nat): State
    requires r in s.flights && s.flights[r].Found?
  {
    var f := s.flights[r];
    s.(rows := s.rows - {f.token}, flights := s.flights[r := Rotating(f.token, f.row.userId)])
  }

  /** The next token of the family; the request is over. */
  function Rotated(s: State, r: nat, token: Token, expiresAt: int): State
    requires IsRotating(s, r) && s.flights[r].token in s.history
  {
    var f := s.flights[r];
    var row := Row(f.userId, expiresAt);
    State(s.rows[token := row], s.history[token := Origin(row, Family(s, f.token))],
          s.flights - {r}, s.log + [Rotation(f.token, token, Family(s, f.token))])
  }

  function Next(s: State, e: Event): State
    requires Possible(s, e)
  {
    match e
    case SignIn(token, row, family) =>
      SignedIn(s, token, Origin(row, family))
    case Find(r, token, answer) =>
      if answer.Some? then s.(flights := s.flights[r := Found(token, answer.value)]) else s
    case Refuse(r, now, userFound) =>
      s.(rows := s.rows - {s.flights[r].token}, flights := s.flights - {r})
    case Delete(r, now) =>
      if s.flights[r].token in s.rows then Deleted(s, r) else s.(flights := s.flights - {r})
    case Create(r, token, expiresAt) =>
      Rotated(s, r, token, expiresAt)
    case Crash(r) => s.(flights := s.flights - {r})
    case Logout(token) => s.(rows := s.rows - {token})
    case LogoutAll(userId) => s.(rows := WithoutUser(s.rows, userId))
  }

  const EMPTY := State(map[], map[], map[], [])

  /** The state after a run, and whether every event of it could happen. */
  function After(run: seq<Event>): Option<State> {
    if run == [] then Some(EMPTY)
    else
      var before := After(Init(run));
      if before.Some? && Possible(before.value, Last(run)) then Some(Next(before.value, Last(run))) else None
  }

  // ---------------------------------------------------------------- one event at a time

  /** A login, a registration or a rotation issues the token. */
  predicate Issues(e: Event, t: Token) {
    (e.SignIn? || e.Create?) && e.token == t
  }

  /** The token is logged out, or its user is, or a request that holds it refuses or rotates it. */
  predicate Removes(s: State, e: Event, t: Token) {
    match e
    case Logout(token) => token == t
    case LogoutAll(userId) => t in s.rows && s.rows[t].userId == userId
    case Refuse(r, _, _) => r in s.flights && s.flights[r].token == t
    case Delete(r, _) => r in s.flights && s.flights[r].token == t
    case _ => false
  }

  /** The row of a token that is live after the event. */
  function NewRow(s: State, e: Event, t: Token): Row
    requires Possible(s, e) && (Issues(e, t) || t in s.rows)
  {
    if e.SignIn? && e.token == t then e.row
    else if e.Create? && e.token == t then Row(s.flights[e.request].userId, e.expiresAt)
    else s.rows[t]
  }

  /** Which tokens are live after an event, and with which row. */
  lemma LiveExactlyWhen(s: State, e: Event, t: Token)
    requires Possible(s, e)
    ensures var n := Next(s, e);
      && (t in n.rows <==> Issues(e, t) || (t in s.rows && !Removes(s, e, t)))
      && (t in n.rows ==> n.rows[t] == NewRow(s, e, t))
  {
  }

  /** Where a request stands after an event. */
  lemma RequestExactlyWhen(s: State, e: Event, r: nat)
    requires Possible(s, e)
    ensures var n := Next(s, e);
      && (r in n.flights && n.flights[r].Found? <==>
            || (e.Find? && e.request == r && e.answer.Some?)
            || (r in s.flights && s.flights[r].Found? && !((e.Refuse? || e.Delete? || e.Crash?) && e.request == r)))
      && (r in n.flights && n.flights[r].Rotating? <==>
            || (e.Delete? && e.request == r && s.flights[r].token in s.rows)
            || (IsRotating(s, r) && !((e.Create? || e.Crash?) && e.request == r)))
      && (r in n.flights && e.Find? && e.request == r ==> n.flights[r] == Found(e.token, e.answer.value))
      && (r in n.flights && e.Delete? && e.request == r ==>
            n.flights[r] == Rotating(s.flights[r].token, s.flights[r].row.userId))
      && (r in n.flights && !((e.Find? || e.Delete?) && e.request == r) ==>
            r in s.flights && n.flights[r] == s.flights[r])
  {
  }

  /** A request that found a row whose user exists goes on exactly while the row has not expired,
      and is refused exactly afterwards. */
  lemma ExpiredRowsAreRefused(s: State, r: nat, now: int)
    requires r in s.flights && s.flights[r].Found?
    ensures Possible(s, Delete(r, now)) <==> now <= s.flights[r].row.expiresAt
    ensures Possible(s, Refuse(r, now, true)) <==> now > s.flights[r].row.expiresAt
    ensures Possible(s, Refuse(r, now, false))
  {
  }

  /** Nothing else holds anybody back: signing in with a new token, logging out and giving up a
      pending request are always possible, and a rotation ends with any new token. */
  lemma NobodyWaits(s: State, r: nat, t: Token, userId: string, row: Row, family: nat)
    ensures Possible(s, Logout(t)) && Possible(s, LogoutAll(userId))
    ensures Possible(s, Crash(r)) <==> r in s.flights
    ensures t !in s.history && (forall u :: u in s.history ==> s.history[u].family != family)
      ==> Possible(s, SignIn(t, row, family))
    ensures IsRotating(s, r) && s.flights[r].token in s.history && t !in s.history
      ==> Possible(s, Create(r, t, row.expiresAt))
    ensures r !in s.flights && t in s.history ==> Possible(s, Find(r, t, Some(s.history[t].row)))
    ensures r !in s.flights ==> Possible(s, Find(r, t, None))
  {
  }

  // ---------------------------------------------------------------- one slot per family

  /** Every token in sight was issued, and none awaiting its successor is still a row. */
  ghost predicate Known(s: State) {
    && (forall t :: t in s.rows ==> t in s.history && s.history[t].row == s.rows[t])
    && (forall r :: r in s.flights ==> s.flights[r].token in s.history)
    && (forall r :: r in s.flights && s.flights[r].Found? ==>
          s.history[s.flights[r].token].row == s.flights[r].row)
    && (forall r :: IsRotating(s, r) ==>
          s.flights[r].token !in s.rows && s.history[s.flights[r].token].row.userId == s.flights[r].userId)
  }

  ghost predicate RowsApart(s: State)
    requires Known(s)
  {
    forall t, u :: t in s.rows && u in s.rows && Family(s, t) == Family(s, u) ==> t == u
  }

  ghost predicate RequestsApart(s: State)
    requires Known(s)
  {
    forall r, q :: IsRotating(s, r) && IsRotating(s, q) ==>
      Family(s, s.flights[r].token) == Family(s, s.flights[q].token) ==> r == q
  }

  ghost predicate RowsApartFromRequests(s: State)
    requires Known(s)
  {
    forall t, r :: t in s.rows && IsRotating(s, r) ==> Family(s, t) != Family(s, s.flights[r].token)
  }

  /** A family holds one row, or one request between its delete and its create, or nothing. */
  ghost predicate OneSlot(s: State)
    requires Known(s)
  {
    RowsApart(s) && RequestsApart(s) && RowsApartFromRequests(s)
  }

  ghost predicate RotationOk(s: State, i: nat)
    requires i < |s.log|
  {
    && s.log[i].before in s.history && s.log[i].after in s.history
    && s.log[i].before !in s.rows
    && Family(s, s.log[i].before) == s.log[i].family == Family(s, s.log[i].after)
  }

  /** Rotations stay in their family, and a rotated token is gone for good. */
  ghost predicate LogSound(s: State) {
    && (forall i: nat :: i < |s.log| ==> RotationOk(s, i))
    && (forall i, r :: 0 <= i < |s.log| && IsRotating(s, r) ==> s.log[i].before != s.flights[r].token)
    && (forall i, j :: 0 <= i < j < |s.log| ==>
          s.log[i].before != s.log[j].before && s.log[i].after != s.log[j].after)
  }

  /** The latest rotation of a family. */
  ghost predicate IsLatest(log: seq<Rotation>, i: int, family: nat) {
    0 <= i < |log| && log[i].family == family && forall j :: i < j < |log| ==> log[j].family != family
  }

  ghost predicate RowsAreLatest(s: State)
    requires Known(s)
  {
    forall t, i :: t in s.rows && IsLatest(s.log, i, Family(s, t)) ==> s.log[i].after == t
  }

  ghost predicate RequestsAreLatest(s: State)
    requires Known(s)
  {
    forall r, i :: IsRotating(s, r) && IsLatest(s.log, i, Family(s, s.flights[r].token)) ==>
      s.log[i].after == s.flights[r].token
  }

  /** Each rotation of a family starts from the token that its previous one issued. */
  ghost predicate Chained(log: seq<Rotation>) {
    forall i, j :: 0 <= i < j < |log| && IsLatest(log[..j], i, log[j].family) ==>
      log[j].before == log[i].after
  }

  /** What a family still holds descends from its latest rotation. */
  ghost predicate TipsAreLatest(s: State)
    requires Known(s)
  {
    RowsAreLatest(s) && RequestsAreLatest(s) && Chained(s.log)
  }

  ghost predicate Inv(s: State) {
    Known(s) && OneSlot(s) && LogSound(s) && TipsAreLatest(s)
  }

  /** Nothing is issued or rotated and nobody starts waiting for a successor. */
  ghost predicate OnlyShrinks(s: State, n: State) {
    && n.history == s.history && n.log == s.log
    && (forall t :: t in n.rows ==> t in s.rows && n.rows[t] == s.rows[t])
    && (forall r :: IsRotating(n, r) ==> r in s.flights && n.flights[r] == s.flights[r])
  }

  lemma ShrinkingKeepsSlots(s: State, n: State)
    requires Inv(s) && OnlyShrinks(s, n) && Known(n)
    ensures OneSlot(n) && LogSound(n)
  {
    forall r | IsRotating(n, r) ensures IsRotating(s, r) {}
    forall i: nat | i < |n.log| ensures RotationOk(n, i) {
      assert RotationOk(s, i);
    }
  }

  lemma ShrinkingKeepsTips(s: State, n: State)
    requires Known(s) && TipsAreLatest(s) && OnlyShrinks(s, n) && Known(n)
    ensures TipsAreLatest(n)
  {
    forall r | IsRotating(n, r) ensures IsRotating(s, r) {}
  }

  lemma ShrinkingKeepsInv(s: State, n: State)
    requires Inv(s) && OnlyShrinks(s, n) && Known(n)
    ensures Inv(n)
  {
    ShrinkingKeepsSlots(s, n);
    ShrinkingKeepsTips(s, n);
  }

  lemma KnownStays(s: State, e: Event)
    requires Known(s) && Possible(s, e)
    ensures Known(Next(s, e))
  {
  }

  // A sign-in opens a family.

  lemma SignInKeepsSlots(s: State, token: Token, o: Origin)
    requires Known(s) && OneSlot(s)
    requires token !in s.history && forall t :: t in s.history ==> s.history[t].family != o.family
    requires Known(SignedIn(s, token, o))
    ensures OneSlot(SignedIn(s, token, o))
  {
    var n := SignedIn(s, token, o);
    assert forall t :: t in s.history ==> Family(n, t) == Family(s, t);
    assert forall r :: IsRotating(n, r) ==> IsRotating(s, r);
  }

  lemma SignInKeepsLog(s: State, token: Token, o: Origin)
    requires Known(s) && LogSound(s)
    requires token !in s.history && forall t :: t in s.history ==> s.history[t].family != o.family
    ensures LogSound(SignedIn(s, token, o))
  {
    var n := SignedIn(s, token, o);
    forall i: nat | i < |s.log| ensures RotationOk(n, i) {
      assert RotationOk(s, i);
    }
    assert forall r :: IsRotating(n, r) ==> IsRotating(s, r);
  }

  lemma SignInKeepsTips(s: State, token: Token, o: Origin)
    requires Known(s) && LogSound(s) && TipsAreLatest(s)
    requires token !in s.history && forall t :: t in s.history ==> s.history[t].family != o.family
    requires Known(SignedIn(s, token, o))
    ensures TipsAreLatest(SignedIn(s, token, o))
  {
    var n := SignedIn(s, token, o);
    forall i: nat | i < |s.log| ensures s.log[i].family != o.family {
      assert RotationOk(s, i);
    }
    assert forall r :: IsRotating(n, r) ==> IsRotating(s, r);
  }

  // A delete that finds its row turns the row into a waiting request.

  lemma DeleteKeepsSlots(s: State, r: nat)
    requires Known(s) && OneSlot(s) && r in s.flights && s.flights[r].Found? && s.flights[r].token in s.rows
    requires Known(Deleted(s, r))
    ensures OneSlot(Deleted(s, r))
  {
    var n := Deleted(s, r);
    forall q | IsRotating(n, q) && q != r
      ensures IsRotating(s, q) && n.flights[q] == s.flights[q]
      ensures Family(n, n.flights[q].token) != Family(n, n.flights[r].token)
    {
      assert IsRotating(s, q);
    }
    assert RowsApart(n);
    forall t, q | t in n.rows && IsRotating(n, q) ensures Family(n, t) != Family(n, n.flights[q].token) {
      assert t in s.rows && t != n.flights[r].token;
    }
    assert RequestsApart(n);
  }

  lemma DeleteKeepsLog(s: State, r: nat)
    requires Known(s) && LogSound(s) && r in s.flights && s.flights[r].Found? && s.flights[r].token in s.rows
    ensures LogSound(Deleted(s, r))
  {
    var n := Deleted(s, r);
    forall i: nat | i < |s.log| ensures RotationOk(n, i) && s.log[i].before != s.flights[r].token {
      assert RotationOk(s, i);
    }
    assert forall q :: IsRotating(n, q) && q != r ==> IsRotating(s, q) && n.flights[q] == s.flights[q];
  }

  lemma DeleteKeepsTips(s: State, r: nat)
    requires Known(s) && TipsAreLatest(s)
    requires r in s.flights && s.flights[r].Found? && s.flights[r].token in s.rows
    requires Known(Deleted(s, r))
    ensures TipsAreLatest(Deleted(s, r))
  {
    var n := Deleted(s, r);
    forall q, i | IsRotating(n, q) && IsLatest(n.log, i, Family(n, n.flights[q].token))
      ensures s.log[i].after == n.flights[q].token
    {
      if q == r {
        assert s.flights[r].token in s.rows && IsLatest(s.log, i, Family(s, s.flights[r].token));
      } else {
        assert IsRotating(s, q) && n.flights[q] == s.flights[q];
      }
    }
    assert RowsAreLatest(n);
  }

  // A create turns the waiting request into the next row of its family.

  lemma CreateKeepsRequests(s: State, r: nat, token: Token, x: int)
    requires Known(s) && RequestsApart(s) && IsRotating(s, r) && token !in s.history
    requires Known(Rotated(s, r, token, x))
    ensures RequestsApart(Rotated(s, r, token, x))
    ensures forall q :: IsRotating(Rotated(s, r, token, x), q) ==>
      IsRotating(s, q) && q != r && Rotated(s, r, token, x).flights[q] == s.flights[q]
  {
  }

  lemma CreateKeepsRows(s: State, r: nat, token: Token, x: int)
    requires Known(s) && OneSlot(s) && IsRotating(s, r) && token !in s.history
    requires Known(Rotated(s, r, token, x))
    ensures RowsApart(Rotated(s, r, token, x))
  {
    var n := Rotated(s, r, token, x);
    assert forall t :: t in s.history ==> Family(n, t) == Family(s, t);
  }

  lemma CreateKeepsSlots(s: State, r: nat, token: Token, x: int)
    requires Known(s) && OneSlot(s) && IsRotating(s, r) && token !in s.history
    requires Known(Rotated(s, r, token, x))
    ensures OneSlot(Rotated(s, r, token, x))
  {
    var n := Rotated(s, r, token, x);
    CreateKeepsRequests(s, r, token, x);
    CreateKeepsRows(s, r, token, x);
    forall t, q | t in n.rows && IsRotating(n, q) ensures Family(n, t) != Family(n, n.flights[q].token) {
      assert IsRotating(s, q) && q != r;
      assert t != token ==> t in s.rows && Family(n, t) == Family(s, t);
    }
  }

  lemma CreateKeepsLog(s: State, r: nat, token: Token, x: int)
    requires Known(s) && OneSlot(s) && LogSound(s) && IsRotating(s, r) && token !in s.history
    ensures LogSound(Rotated(s, r, token, x))
  {
    var n := Rotated(s, r, token, x);
    forall i: nat | i < |n.log| ensures RotationOk(n, i) {
      if i < |s.log| { assert RotationOk(s, i); }
    }
    forall q | IsRotating(n, q) ensures IsRotating(s, q) && q != r && n.flights[q] == s.flights[q] {}
    forall i: nat | i < |s.log|
      ensures s.log[i].before != s.flights[r].token && s.log[i].after != token
    {
      assert RotationOk(s, i);
    }
  }

  lemma NewLatest(log: seq<Rotation>, new_: Rotation, i: int, f: nat)
    requires IsLatest(log + [new_], i, f)
    ensures if f == new_.family then i == |log| else IsLatest(log, i, f)
  {
    assert (log + [new_])[|log|] == new_;
    assert forall j :: 0 <= j < |log| ==> (log + [new_])[j] == log[j];
  }

  lemma ChainGrows(log: seq<Rotation>, new_: Rotation)
    requires Chained(log) && forall i :: IsLatest(log, i, new_.family) ==> log[i].after == new_.before
    ensures Chained(log + [new_])
  {
    var more := log + [new_];
    forall i, j | 0 <= i < j < |more| && IsLatest(more[..j], i, more[j].family)
      ensures more[j].before == more[i].after
    {
      assert more[..j] == log[..j] && log[..|log|] == log;
    }
  }

  lemma CreateKeepsTips(s: State, r: nat, token: Token, x: int)
    requires Known(s) && OneSlot(s) && TipsAreLatest(s)
    requires IsRotating(s, r) && token !in s.history
    requires Known(Rotated(s, r, token, x))
    ensures TipsAreLatest(Rotated(s, r, token, x))
  {
    var n := Rotated(s, r, token, x);
    var new_ := Last(n.log);
    ChainGrows(s.log, new_);
    forall t, i | t in n.rows && IsLatest(n.log, i, Family(n, t)) ensures n.log[i].after == t {
      NewLatest(s.log, new_, i, Family(n, t));
      if t != token { assert t in s.rows && Family(s, t) != new_.family; }
    }
    forall q, i | IsRotating(n, q) && IsLatest(n.log, i, Family(n, n.flights[q].token))
      ensures n.log[i].after == n.flights[q].token
    {
      NewLatest(s.log, new_, i, Family(n, n.flights[q].token));
      assert IsRotating(s, q) && q != r && n.flights[q] == s.flights[q];
    }
  }

  lemma OtherEventsShrink(s: State, e: Event)
    requires Possible(s, e) && !e.SignIn? && !e.Create?
    requires e.Delete? ==> s.flights[e.request].token !in s.rows
    ensures OnlyShrinks(s, Next(s, e))
  {
  }

  lemma EventKeepsInv(s: State, e: Event)
    requires Inv(s) && Possible(s, e)
    ensures Inv(Next(s, e))
  {
    KnownStays(s, e);
    if e.SignIn? {
      var o := Origin(e.row, e.family);
      SignInKeepsSlots(s, e.token, o);
      SignInKeepsLog(s, e.token, o);
      SignInKeepsTips(s, e.token, o);
    } else if e.Delete? && s.flights[e.request].token in s.rows {
      DeleteKeepsSlots(s, e.request);
      DeleteKeepsLog(s, e.request);
      DeleteKeepsTips(s, e.request);
    } else if e.Create? {
      CreateKeepsSlots(s, e.request, e.token, e.expiresAt);
      CreateKeepsLog(s, e.request, e.token, e.expiresAt);
      CreateKeepsTips(s, e.request, e.token, e.expiresAt);
    } else {
      OtherEventsShrink(s, e);
      ShrinkingKeepsInv(s, Next(s, e));
    }
  }

  // ---------------------------------------------------------------- whole runs

  lemma {:induction false} RunKeepsInv(run: seq<Event>)
    requires After(run).Some?
    ensures Inv(After(run).value)
  {
    if run != [] {
      RunKeepsInv(Init(run));
      EventKeepsInv(After(Init(run)).value, Last(run));
    }
  }

  function Live(s: State, family: nat): set<Token> {
    set t | t in s.rows && t in s.history && Family(s, t) == family
  }

  /** Requests of a family between their delete and their create. */
  function Pending(s: State, family: nat): set<nat> {
    set r | r in s.flights && IsRotating(s, r) && s.flights[r].token in s.history
            && Family(s, s.flights[r].token) == family
  }

  lemma AtMostOneMember<T>(s: set<T>)
    requires forall x, y :: x in s && y in s ==> x == y
    ensures |s| <= 1
  {
    if s != {} {
      var x :| x in s;
      assert s == {x};
    }
  }

  /** Live tokens and rotations between delete and create: at most one per login. */
  lemma {:induction false} OneTokenPerFamily(run: seq<Event>, family: nat)
    requires After(run).Some?
    ensures |Live(After(run).value, family)| + |Pending(After(run).value, family)| <= 1
  {
    var s := After(run).value;
    RunKeepsInv(run);
    AtMostOneMember(Live(s, family));
    AtMostOneMember(Pending(s, family));
    if t :| t in Live(s, family) {
      forall r ensures r !in Pending(s, family) {
        assert IsRotating(s, r) ==> Family(s, t) != Family(s, s.flights[r].token);
      }
      assert Pending(s, family) == {};
    }
  }

  /** However refreshes interleave, each token value is exchanged at most once, an exchanged
      token is never a row again, and the rotations of a login form one chain. */
  lemma {:induction false} RotationsFormChains(run: seq<Event>)
    requires After(run).Some?
    ensures var s := After(run).value;
      && (forall i, j :: 0 <= i < j < |s.log| ==> s.log[i].before != s.log[j].before)
      && (forall i :: 0 <= i < |s.log| ==> s.log[i].before !in s.rows)
      && Chained(s.log)
  {
    RunKeepsInv(run);
    var s := After(run).value;
    forall i: nat | i < |s.log| ensures s.log[i].before !in s.rows {
      assert RotationOk(s, i);
    }
  }

  predicate Occupied(s: State, family: nat) {
    Live(s, family) != {} || Pending(s, family) != {}
  }

  lemma EmptyStaysEmpty(s: State, e: Event, family: nat)
    requires Inv(s) && Possible(s, e) && !Occupied(s, family)
    requires exists t :: t in s.history && Family(s, t) == family
    ensures !Occupied(Next(s, e), family)
    ensures exists t :: t in Next(s, e).history && Family(Next(s, e), t) == family
  {
    var n := Next(s, e);
    var u :| u in s.history && Family(s, u) == family;
    assert u in n.history && Family(n, u) == family;
    forall t ensures t !in Live(n, family) {
      assert t !in Live(s, family);
      if e.Create? { assert e.request !in Pending(s, family); }
    }
    forall r ensures r !in Pending(n, family) {
      assert r !in Pending(s, family);
      if e.Delete? { assert s.flights[e.request].token !in Live(s, family); }
    }
  }

  function Runs(s: State, events: seq<Event>): Option<State> {
    if events == [] then Some(s)
    else
      var before := Runs(s, Init(events));
      if before.Some? && Possible(before.value, Last(events)) then Some(Next(before.value, Last(events))) else None
  }

  /** A login whose last token is gone and which no request is rotating never comes back. */
  lemma {:induction false} EmptyFamiliesStayEmpty(s: State, events: seq<Event>, family: nat)
    requires Inv(s) && !Occupied(s, family) && Runs(s, events).Some?
    requires exists t :: t in s.history && Family(s, t) == family
    ensures var n := Runs(s, events).value;
      && Inv(n) && !Occupied(n, family)
      && exists t :: t in n.history && Family(n, t) == family
  {
    if events != [] {
      EmptyFamiliesStayEmpty(s, Init(events), family);
      EventKeepsInv(Runs(s, Init(events)).value, Last(events));
      EmptyStaysEmpty(Runs(s, Init(events)).value, Last(events), family);
    }
  }

  // ---------------------------------------------------------------- logging out everywhere

  ghost predicate HasRows(s: State, userId: string) {
    exists t :: t in s.rows && s.rows[t].userId == userId
  }

  ghost predicate IsWaiting(s: State, userId: string) {
    exists r :: IsRotating(s, r) && s.flights[r].userId == userId
  }

  /** No event of these is a sign-in of the user. */
  predicate WithoutSignIn(events: seq<Event>, userId: string) {
    forall e :: e in events && e.SignIn? ==> e.row.userId != userId
  }

  lemma QuietStaysQuiet(s: State, e: Event, userId: string)
    requires Known(s) && Possible(s, e) && !HasRows(s, userId) && !IsWaiting(s, userId)
    requires e.SignIn? ==> e.row.userId != userId
    ensures !HasRows(Next(s, e), userId) && !IsWaiting(Next(s, e), userId)
  {
    var n := Next(s, e);
    forall t | t in n.rows ensures n.rows[t].userId != userId {
      if t in s.rows && s.rows[t] == n.rows[t] { assert s.rows[t].userId != userId; }
    }
    forall r | IsRotating(n, r) ensures n.flights[r].userId != userId {
      if e.Delete? && r == e.request { assert s.rows[s.flights[r].token].userId != userId; }
    }
  }

  lemma {:induction false} QuietRunsStayQuiet(s: State, events: seq<Event>, userId: string)
    requires Known(s) && Runs(s, events).Some? && !HasRows(s, userId) && !IsWaiting(s, userId)
    requires WithoutSignIn(events, userId)
    ensures var n := Runs(s, events).value;
      Known(n) && !HasRows(n, userId) && !IsWaiting(n, userId)
  {
    if events != [] {
      QuietRunsStayQuiet(s, Init(events), userId);
      KnownStays(Runs(s, Init(events)).value, Last(events));
      QuietStaysQuiet(Runs(s, Init(events)).value, Last(events), userId);
    }
  }

  /** The user has a token again without signing in. */
  ghost predicate ComesBack(s: State, events: seq<Event>, userId: string) {
    WithoutSignIn(events, userId) && Runs(s, events).Some? && HasRows(Runs(s, events).value, userId)
  }

  lemma WaitingRequestsComeBack(n: State, userId: string) returns (events: seq<Event>)
    requires Known(n) && IsWaiting(n, userId)
    ensures ComesBack(n, events, userId)
  {
    var r :| IsRotating(n, r) && n.flights[r].userId == userId;
    var bound := NewTokenExists(n.history.Keys);
    var t := seq(bound + 1, i => 'x');
    assert t !in n.history.Keys;
    events := [Create(r, t, 0)];
    assert Init(events) == [] && Possible(n, events[0]) && t in Next(n, events[0]).rows;
  }

  /** logoutAllDevices removes every row of a user; for the user to have a token again
      without a sign-in, a request must have been between its delete and its create. */
  lemma LogoutAllIsFinalIff(s: State, userId: string)
    requires Known(s)
    ensures var n := Next(s, LogoutAll(userId));
      !HasRows(n, userId) && (IsWaiting(s, userId) <==> exists events :: ComesBack(n, events, userId))
  {
    var n := Next(s, LogoutAll(userId));
    KnownStays(s, LogoutAll(userId));
    assert n.flights == s.flights;
    assert forall r :: IsRotating(n, r) <==> IsRotating(s, r);
    if IsWaiting(s, userId) {
      var r :| IsRotating(s, r) && s.flights[r].userId == userId;
      assert IsRotating(n, r);
      var events := WaitingRequestsComeBack(n, userId);
    } else {
      forall events ensures !ComesBack(n, events, userId) {
        if WithoutSignIn(events, userId) && Runs(n, events).Some? { QuietRunsStayQuiet(n, events, userId); }
      }
    }
  }

  /** Longer strings than these are all new. */
  lemma {:induction false} NewTokenExists(used: set<Token>) returns (bound: nat)
    ensures forall t :: t in used ==> |t| <= bound
  {
    if used == {} {
      bound := 0;
    } else {
      var t :| t in used;
      var rest := NewTokenExists(used - {t});
      bound := if |t| <= rest then rest else |t|;
      assert forall u :: u in used ==> u == t || u in used - {t};
    }
  }

  // ---------------------------------------------------------------- the serial request

  /** The events of one refresh with nothing in between. */
  function Alone(s: State, r: nat, token: Token, now: int, userFound: bool, next: Token, expiresAt: int): seq<Event> {
    if token !in s.rows then [Find(r, token, None)]
    else if now > s.rows[token].expiresAt || !userFound then
      [Find(r, token, Some(s.rows[token])), Refuse(r, now, userFound)]
    else [Find(r, token, Some(s.rows[token])), Delete(r, now), Create(r, next, expiresAt)]
  }

  /** A serial refresh is the method above, event by event. */
  lemma {:induction false} AloneIsTheSameRefresh(s: State, r: nat, token: Token, now: int, userFound: bool,
                                                 next: Token, expiresAt: int)
    requires Known(s) && r !in s.flights && next !in s.history
    ensures var ok := token in s.rows && now <= s.rows[token].expiresAt && userFound;
      var n := Runs(s, Alone(s, r, token, now, userFound, next, expiresAt));
      && n.Some?
      && n.value.rows == (if ok then (s.rows - {token})[next := Row(s.rows[token].userId, expiresAt)]
                          else s.rows - {token})
      && n.value.flights == s.flights
      && n.value.log == (if ok then s.log + [Rotation(token, next, Family(s, token))] else s.log)
  {
    var events := Alone(s, r, token, now, userFound, next, expiresAt);
    assert Init(events[..1]) == [] && Runs(s, []) == Some(s);
    assert Runs(s, events[..1]) == Some(Next(s, events[0]));
    if token in s.rows {
      assert Init(events[..2]) == events[..1];
      var one := Next(s, events[0]);
      assert Runs(s, events[..2]) == Some(Next(one, events[1]));
      if |events| == 3 {
        assert Init(events) == events[..2];
      } else {
        assert events[..2] == events;
      }
    } else {
      assert events[..1] == events;
    }
  }
}
