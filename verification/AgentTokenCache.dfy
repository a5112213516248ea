/**
 * The agent-owned token cache of src/auth/agent-token-cache.ts: any number of processes read the
 * file, take the directory lock, read again, compare and atomically replace, in any interleaving.
 */
module AgentTokenCache {
  import opened Wrappers

  /** What decoding the middle part of a token yields; a number the code would reject is None. */
  datatype Claims = Claims(
    iat: Option<int>,
    exp: Option<int>,
    tokenType: Option<string>,
    userId: Option<string>,
    username: Option<string>)

  /** Tokens are compared as strings: `id` tells apart tokens that decode to the same claims. */
  datatype Token = Token(id: nat, claims: Option<Claims>)

  /** The fields of a delivered token record that the protocol looks at. */
  datatype Delivery = Delivery(accessToken: Token, userId: Option<string>)

  /** A parsed cache file; a missing or unparsable file is None at the use sites. */
  datatype Entry = Entry(accessToken: Option<Token>, userId: Option<string>)

  function EntryOf(d: Delivery): Entry { Entry(Some(d.accessToken), d.userId) }

  predicate IsDigit(c: char) { '0' <= c <= '9' }

  /** A user identifier counts only when it is a positive decimal numeral. */
  function Principal(value: Option<string>): Option<string> {
    match value
    case Some(text) =>
      if text != "" && IsDigit(text[0]) && text[0] != '0' && (forall c :: c in text ==> IsDigit(c))
      then Some(text) else None
    case None => None
  }

  function IssuedAt(claims: Option<Claims>, now: int): Option<int> {
    if claims.Some? && claims.value.iat.Some? && 0 < claims.value.iat.value <= now / 1000
    then claims.value.iat else None
  }

  /** `checkPrincipal` throws: both records name a principal and the names differ. */
  predicate Conflict(previous: Option<Entry>, d: Delivery) {
    && previous.Some?
    && Principal(previous.value.userId).Some?
    && Principal(d.userId).Some?
    && Principal(previous.value.userId) != Principal(d.userId)
  }

  predicate Retain(previous: Option<Entry>, d: Delivery, now: int) {
    && previous.Some? && previous.value.accessToken.Some?
    && var held := previous.value.accessToken.value;
       || held == d.accessToken
       || (var oldIat := IssuedAt(held.claims, now);
           var nextIat := IssuedAt(d.accessToken.claims, now);
           && oldIat.Some? && nextIat.Some? && nextIat.value <= oldIat.value
           && held.claims.value.tokenType == Some("access")
           && Principal(held.claims.value.userId) == Principal(d.userId)
           && held.claims.value.username == d.accessToken.claims.value.username
           && held.claims.value.exp.Some? && now < held.claims.value.exp.value * 1000)
  }

  // ---------------------------------------------------------------- the protocol

  /** Where one `writeAgentTokenCache` call stands. */
  datatype Pc = Idle | Waiting | Holding | Writing | Renamed | Finished | Failed

  datatype State = State(now: int, cache: Option<Entry>, lock: Option<nat>, pcs: seq<Pc>)

  datatype Action =
    | Tick(later: int)
    | Begin(w: nat)
    | Acquire(w: nat)
    | TimeOut(w: nat)
    | Compare(w: nat)
    | Replace(w: nat)
    | Release(w: nat)
    /** An I/O failure or the death of the process; the kernel drops its lock. */
    | Die(w: nat)

  predicate Locked(pc: Pc) { pc in {Holding, Writing, Renamed} }

  predicate Enabled(s: State, a: Action) {
    match a
    case Tick(later) => s.now <= later
    case Begin(w) => w < |s.pcs| && s.pcs[w] == Idle
    case Acquire(w) => w < |s.pcs| && s.pcs[w] == Waiting && s.lock == None
    case TimeOut(w) => w < |s.pcs| && s.pcs[w] == Waiting
    case Compare(w) => w < |s.pcs| && s.pcs[w] == Holding
    case Replace(w) => w < |s.pcs| && s.pcs[w] == Writing
    case Release(w) => w < |s.pcs| && s.pcs[w] == Renamed
    case Die(w) => w < |s.pcs| && s.pcs[w] != Finished && s.pcs[w] != Failed
  }

  function Move(s: State, w: nat, pc: Pc): State
    requires w < |s.pcs|
  {
    s.(pcs := s.pcs[w := pc])
  }

  function Leave(s: State, w: nat, pc: Pc): State
    requires w < |s.pcs|
  {
    Move(s, w, pc).(lock := if s.lock == Some(w) then None else s.lock)
  }

  function Apply(ds: seq<Delivery>, s: State, a: Action): State
    requires |s.pcs| == |ds| && Enabled(s, a)
  {
    match a
    case Tick(later) => s.(now := later)
    case Begin(w) =>
      if Conflict(s.cache, ds[w]) then Move(s, w, Failed)
      else if s.cache.Some? && s.cache.value.accessToken == Some(ds[w].accessToken) then Move(s, w, Finished)
      else Move(s, w, Waiting)
    case Acquire(w) => Move(s, w, Holding).(lock := Some(w))
    case TimeOut(w) => Move(s, w, Failed)
    case Compare(w) =>
      if Conflict(s.cache, ds[w]) then Leave(s, w, Failed)
      else if Retain(s.cache, ds[w], s.now) then Leave(s, w, Finished)
      else Move(s, w, Writing)
    case Replace(w) => Move(s, w, Renamed).(cache := Some(EntryOf(ds[w])))
    case Release(w) => Leave(s, w, Finished)
    case Die(w) => Leave(s, w, Failed)
  }

  /** A behaviour: every state follows from the one before by an enabled action. */
  ghost predicate Behaviour(ds: seq<Delivery>, states: seq<State>, actions: seq<Action>) {
    && |states| == |actions| + 1
    && (forall i :: 0 <= i < |states| ==> |states[i].pcs| == |ds|)
    && (forall i :: 0 <= i < |actions| ==>
          Enabled(states[i], actions[i]) && states[i + 1] == Apply(ds, states[i], actions[i]))
  }

  ghost predicate Initial(s: State) {
    && s.lock == None
    && (forall w :: 0 <= w < |s.pcs| ==> s.pcs[w] == Idle)
  }

  // ---------------------------------------------------------------- what is written and read

  /** An access token of `username`, with an issue and an expiry time, that names the same principal as its record. */
  predicate WellFormed(token: Token, userId: Option<string>, username: string) {
    && token.claims.Some?
    && token.claims.value.username == Some(username)
    && token.claims.value.tokenType == Some("access")
    && Principal(userId).Some? && Principal(token.claims.value.userId) == Principal(userId)
    && 0 < Iat(token)
    && token.claims.value.exp.Some?
  }

  function Iat(token: Token): int {
    if token.claims.Some? && token.claims.value.iat.Some? then token.claims.value.iat.value else 0
  }

  predicate Issued(token: Token, now: int) { Iat(token) <= now / 1000 }

  predicate LiveAt(token: Token, now: int) {
    token.claims.Some? && token.claims.value.exp.Some? && now < token.claims.value.exp.value * 1000
  }

  /**
   * No usable token: missing, undecodable, expired before the start, not an access token, of another
   * username or of another user than its record.
   */
  predicate Blank(cache: Option<Entry>, username: string, start: int) {
    || cache.None?
    || cache.value.accessToken.None?
    || (var token := cache.value.accessToken.value;
        || token.claims.None? || token.claims.value.tokenType != Some("access")
        || token.claims.value.username != Some(username) || Iat(token) <= 0 || !LiveAt(token, start)
        || (Principal(cache.value.userId).Some?
            && Principal(token.claims.value.userId) != Principal(cache.value.userId)))
  }

  /** The issue time of the cached token, 0 when there is no usable one. */
  function IssueTime(cache: Option<Entry>, username: string, start: int): int {
    if Blank(cache, username, start) then 0 else Iat(cache.value.accessToken.value)
  }

  /** A well-formed cached token, issued by `now`. */
  predicate Good(cache: Option<Entry>, username: string, now: int) {
    && cache.Some? && cache.value.accessToken.Some?
    && WellFormed(cache.value.accessToken.value, cache.value.userId, username)
    && Issued(cache.value.accessToken.value, now)
  }

  ghost predicate CacheInv(username: string, start: int, cache: Option<Entry>, now: int) {
    Blank(cache, username, start) || Good(cache, username, now)
  }

  /** The cached token was usable at the start and has expired since. */
  predicate Expired(cache: Option<Entry>, username: string, start: int, now: int) {
    !Blank(cache, username, start) && !LiveAt(cache.value.accessToken.value, now)
  }

  /** What a delivery must be when its writer begins: issued by then, and not expired before the run. */
  predicate Admissible(d: Delivery, username: string, start: int, now: int) {
    WellFormed(d.accessToken, d.userId, username) && Issued(d.accessToken, now) && LiveAt(d.accessToken, start)
  }

  /** A run from the first state on: tokens may be issued, delivered and expire while it goes on. */
  ghost predicate Sensible(ds: seq<Delivery>, username: string, states: seq<State>, actions: seq<Action>) {
    && Behaviour(ds, states, actions)
    && Initial(states[0])
    && CacheInv(username, states[0].now, states[0].cache, states[0].now)
    && forall i :: 0 <= i < |actions| && actions[i].Begin? ==>
         Admissible(ds[actions[i].w], username, states[0].now, states[i].now)
  }

  /** No token expires while it is the cached one. */
  ghost predicate NeverExpires(username: string, states: seq<State>)
    requires states != []
  {
    forall i :: 0 <= i < |states| ==> !Expired(states[i].cache, username, states[0].now, states[i].now)
  }

  // ---------------------------------------------------------------- the lock

  ghost predicate LockInv(s: State) {
    forall w :: 0 <= w < |s.pcs| ==> (Locked(s.pcs[w]) <==> s.lock == Some(w))
  }

  lemma StepKeepsLock(ds: seq<Delivery>, s: State, a: Action)
    requires |s.pcs| == |ds| && Enabled(s, a) && LockInv(s)
    ensures LockInv(Apply(ds, s, a))
  {
  }

  lemma {:induction false} LockAlways(ds: seq<Delivery>, states: seq<State>, actions: seq<Action>, i: nat)
    requires Behaviour(ds, states, actions) && Initial(states[0]) && i < |states|
    ensures LockInv(states[i])
  {
    if i > 0 {
      LockAlways(ds, states, actions, i - 1);
      StepKeepsLock(ds, states[i - 1], actions[i - 1]);
    }
  }

  /** At most one writer is between acquiring and releasing the lock, with deaths allowed at any point. */
  lemma MutualExclusion(ds: seq<Delivery>, states: seq<State>, actions: seq<Action>, i: nat, v: nat, w: nat)
    requires Behaviour(ds, states, actions) && Initial(states[0]) && i < |states|
    requires v < |ds| && w < |ds| && Locked(states[i].pcs[v]) && Locked(states[i].pcs[w])
    ensures v == w
  {
    LockAlways(ds, states, actions, i);
  }

  // ---------------------------------------------------------------- invariants

  /** A replacement by `d` would install a newer token, or take the place of one that has expired. */
  ghost predicate MayReplace(d: Delivery, username: string, start: int, cache: Option<Entry>, now: int) {
    && !Conflict(cache, d)
    && (IssueTime(cache, username, start) < Iat(d.accessToken) || Expired(cache, username, start, now))
  }

  ghost predicate WriterInv(d: Delivery, username: string, start: int, s: State, pc: Pc) {
    && (pc != Idle && pc != Failed ==> Admissible(d, username, start, s.now))
    && (pc == Writing ==> MayReplace(d, username, start, s.cache, s.now))
  }

  ghost predicate Inv(ds: seq<Delivery>, username: string, start: int, s: State) {
    && |s.pcs| == |ds| && start <= s.now
    && LockInv(s)
    && CacheInv(username, start, s.cache, s.now)
    && forall w :: 0 <= w < |ds| ==> WriterInv(ds[w], username, start, s, s.pcs[w])
  }

  /** A writer that begins in `s` is admissible. */
  ghost predicate BeginsWell(ds: seq<Delivery>, username: string, start: int, s: State, a: Action)
    requires |s.pcs| == |ds| && Enabled(s, a)
  {
    a.Begin? ==> Admissible(ds[a.w], username, start, s.now)
  }

  /** Retention, exactly: for the same identity the cached token stays iff it is not older and not expired. */
  lemma RetainExactly(previous: Entry, d: Delivery, username: string, now: int)
    requires previous.accessToken.Some? && previous.accessToken != Some(d.accessToken)
    requires Good(Some(previous), username, now)
    requires WellFormed(d.accessToken, d.userId, username) && Issued(d.accessToken, now)
    requires !Conflict(Some(previous), d)
    ensures Retain(Some(previous), d, now)
            <==> Iat(d.accessToken) <= Iat(previous.accessToken.value) && LiveAt(previous.accessToken.value, now)
  {
  }

  /** The decision under the lock: not retained means newer than what is cached, or in place of an expired token. */
  lemma NotRetainedMayReplace(d: Delivery, username: string, start: int, cache: Option<Entry>, now: int)
    requires CacheInv(username, start, cache, now) && start <= now && Admissible(d, username, start, now)
    requires !Conflict(cache, d)
    ensures !Retain(cache, d, now) ==> MayReplace(d, username, start, cache, now)
    ensures Retain(cache, d, now) ==> Iat(d.accessToken) <= IssueTime(cache, username, start)
  {
  }

  lemma StepKeepsWriter(ds: seq<Delivery>, username: string, start: int, s: State, a: Action, v: nat)
    requires Inv(ds, username, start, s) && Enabled(s, a) && BeginsWell(ds, username, start, s, a) && v < |ds|
    ensures var s' := Apply(ds, s, a); WriterInv(ds[v], username, start, s', s'.pcs[v])
  {
    assert WriterInv(ds[v], username, start, s, s.pcs[v]);
    if !a.Tick? {
      assert WriterInv(ds[a.w], username, start, s, s.pcs[a.w]);
      if a.Compare? && !Conflict(s.cache, ds[a.w]) {
        NotRetainedMayReplace(ds[a.w], username, start, s.cache, s.now);
      }
    }
  }

  lemma StepKeepsCache(ds: seq<Delivery>, username: string, start: int, s: State, a: Action)
    requires Inv(ds, username, start, s) && Enabled(s, a)
    ensures CacheInv(username, start, Apply(ds, s, a).cache, Apply(ds, s, a).now)
  {
    if a.Replace? {
      assert WriterInv(ds[a.w], username, start, s, s.pcs[a.w]);
    }
  }

  lemma StepKeepsInv(ds: seq<Delivery>, username: string, start: int, s: State, a: Action)
    requires Inv(ds, username, start, s) && Enabled(s, a) && BeginsWell(ds, username, start, s, a)
    ensures Inv(ds, username, start, Apply(ds, s, a))
  {
    StepKeepsLock(ds, s, a);
    StepKeepsCache(ds, username, start, s, a);
    forall v | 0 <= v < |ds|
      ensures var s' := Apply(ds, s, a); WriterInv(ds[v], username, start, s', s'.pcs[v])
    {
      StepKeepsWriter(ds, username, start, s, a, v);
    }
  }

  lemma {:induction false} InvAlways(ds: seq<Delivery>, username: string, states: seq<State>, actions: seq<Action>,
                                     i: nat)
    requires Sensible(ds, username, states, actions) && i < |states|
    ensures Inv(ds, username, states[0].now, states[i])
  {
    if i > 0 {
      InvAlways(ds, username, states, actions, i - 1);
      StepKeepsInv(ds, username, states[0].now, states[i - 1], actions[i - 1]);
    }
  }

  // ---------------------------------------------------------------- theorems

  /** The file is unchanged, or holds a strictly newer token of the principal it already named, if it named one. */
  ghost predicate Advances(username: string, start: int, before: Option<Entry>, after: Option<Entry>) {
    || after == before
    || (IssueTime(before, username, start) < IssueTime(after, username, start) && SamePrincipal(before, after))
  }

  ghost predicate SamePrincipal(before: Option<Entry>, after: Option<Entry>) {
    before.Some? && Principal(before.value.userId).Some? ==>
      after.Some? && Principal(after.value.userId) == Principal(before.value.userId)
  }

  /** A replacement installs a usable token of the same principal, newer unless the old one has expired. */
  lemma ReplaceAdvances(ds: seq<Delivery>, username: string, start: int, s: State, w: nat)
    requires Inv(ds, username, start, s) && w < |ds| && s.pcs[w] == Writing
    ensures var next := Some(EntryOf(ds[w]));
            && !Blank(next, username, start)
            && IssueTime(next, username, start) == Iat(ds[w].accessToken)
            && SamePrincipal(s.cache, next)
            && (Advances(username, start, s.cache, next) || Expired(s.cache, username, start, s.now))
  {
    assert WriterInv(ds[w], username, start, s, s.pcs[w]);
  }

  /**
   * Every step of every run, tokens expiring or not: the file is unchanged, or holds a strictly newer
   * token, or one in place of a token that has expired; and the principal it names never changes.
   */
  lemma StepAdvances(ds: seq<Delivery>, username: string, states: seq<State>, actions: seq<Action>, j: nat)
    requires Sensible(ds, username, states, actions) && 0 < j < |states|
    ensures var start, before, after := states[0].now, states[j - 1], states[j];
            && (Advances(username, start, before.cache, after.cache)
                || Expired(before.cache, username, start, before.now))
            && SamePrincipal(before.cache, after.cache)
  {
    InvAlways(ds, username, states, actions, j - 1);
    assert states[j] == Apply(ds, states[j - 1], actions[j - 1]);
    if actions[j - 1].Replace? {
      ReplaceAdvances(ds, username, states[0].now, states[j - 1], actions[j - 1].w);
    }
  }

  /** In every interleaving the cached principal never changes, even when writers of several principals compete. */
  lemma {:induction false} PrincipalNeverChanges(ds: seq<Delivery>, username: string, states: seq<State>,
                                                 actions: seq<Action>, i: nat, j: nat)
    requires Sensible(ds, username, states, actions) && i <= j < |states|
    ensures SamePrincipal(states[i].cache, states[j].cache)
    decreases j - i
  {
    if i < j {
      PrincipalNeverChanges(ds, username, states, actions, i, j - 1);
      StepAdvances(ds, username, states, actions, j);
    }
  }

  lemma AdvancesTransitively(username: string, start: int, a: Option<Entry>, b: Option<Entry>, c: Option<Entry>)
    requires Advances(username, start, a, b) && Advances(username, start, b, c)
    ensures Advances(username, start, a, c)
  {
  }

  /**
   * As long as no token expires while it is cached, the cached issue time never decreases in any
   * interleaving, and the cached token is replaced only by a strictly newer one of the same
   * principal, so the first writer wins a tie.
   */
  lemma {:induction false} CacheOnlyAdvances(ds: seq<Delivery>, username: string, states: seq<State>,
                                             actions: seq<Action>, i: nat, j: nat)
    requires Sensible(ds, username, states, actions) && NeverExpires(username, states) && i <= j < |states|
    ensures Advances(username, states[0].now, states[i].cache, states[j].cache)
    decreases j - i
  {
    if i < j {
      CacheOnlyAdvances(ds, username, states, actions, i, j - 1);
      StepAdvances(ds, username, states, actions, j);
      AdvancesTransitively(username, states[0].now, states[i].cache, states[j - 1].cache, states[j].cache);
    }
  }

  /** Whatever is cached was there at the start or was delivered. */
  lemma {:induction false} CacheIsGenuine(ds: seq<Delivery>, states: seq<State>, actions: seq<Action>, i: nat)
    requires Behaviour(ds, states, actions) && i < |states|
    ensures states[i].cache == states[0].cache || exists w :: 0 <= w < |ds| && states[i].cache == Some(EntryOf(ds[w]))
  {
    if i > 0 {
      CacheIsGenuine(ds, states, actions, i - 1);
      assert states[i] == Apply(ds, states[i - 1], actions[i - 1]);
      if actions[i - 1].Replace? {
        assert states[i].cache == Some(EntryOf(ds[actions[i - 1].w]));
      }
    }
  }

  // ---------------------------------------------------------------- when all have finished

  predicate Settled(pc: Pc) { pc == Renamed || pc == Finished }

  /** A settled writer's token is not newer than the cached one. */
  ghost predicate Served(d: Delivery, username: string, start: int, cache: Option<Entry>, pc: Pc) {
    Settled(pc) ==> Iat(d.accessToken) <= IssueTime(cache, username, start)
  }

  lemma BeginServes(d: Delivery, username: string, start: int, cache: Option<Entry>, now: int)
    requires Admissible(d, username, start, now) && !Conflict(cache, d)
    requires cache.Some? && cache.value.accessToken == Some(d.accessToken)
    ensures Iat(d.accessToken) <= IssueTime(cache, username, start)
  {
  }

  lemma StepServes(ds: seq<Delivery>, username: string, start: int, s: State, a: Action, v: nat)
    requires Inv(ds, username, start, s) && Enabled(s, a) && BeginsWell(ds, username, start, s, a) && v < |ds|
    requires Served(ds[v], username, start, s.cache, s.pcs[v])
    requires IssueTime(s.cache, username, start) <= IssueTime(Apply(ds, s, a).cache, username, start)
    ensures var s' := Apply(ds, s, a); Served(ds[v], username, start, s'.cache, s'.pcs[v])
  {
    if !a.Tick? && a.w == v {
      var d := ds[v];
      assert WriterInv(d, username, start, s, s.pcs[v]);
      if a.Begin? && !Conflict(s.cache, d) && s.cache.Some? && s.cache.value.accessToken == Some(d.accessToken) {
        BeginServes(d, username, start, s.cache, s.now);
      } else if a.Compare? && !Conflict(s.cache, d) {
        NotRetainedMayReplace(d, username, start, s.cache, s.now);
      } else if a.Replace? {
        ReplaceAdvances(ds, username, start, s, v);
      }
    }
  }

  lemma {:induction false} ServedAlways(ds: seq<Delivery>, username: string, states: seq<State>, actions: seq<Action>,
                                        i: nat, v: nat)
    requires Sensible(ds, username, states, actions) && NeverExpires(username, states) && i < |states| && v < |ds|
    ensures Served(ds[v], username, states[0].now, states[i].cache, states[i].pcs[v])
    decreases i
  {
    if i > 0 {
      ServedAlways(ds, username, states, actions, i - 1, v);
      InvAlways(ds, username, states, actions, i - 1);
      CacheOnlyAdvances(ds, username, states, actions, i - 1, i);
      StepServes(ds, username, states[0].now, states[i - 1], actions[i - 1], v);
    }
  }

  ghost predicate AllFinished(s: State) {
    forall w :: 0 <= w < |s.pcs| ==> s.pcs[w] == Finished
  }

  /**
   * When every writer has finished the cache holds the greatest issue time among the initial token
   * and all the delivered ones, as a complete record that was there or was delivered.
   */
  lemma FinalCacheIsNewest(ds: seq<Delivery>, username: string, states: seq<State>, actions: seq<Action>)
    requires Sensible(ds, username, states, actions) && NeverExpires(username, states)
    requires AllFinished(states[|states| - 1])
    ensures var start, final := states[0].now, states[|states| - 1].cache;
            && IssueTime(states[0].cache, username, start) <= IssueTime(final, username, start)
            && (forall w :: 0 <= w < |ds| ==> Iat(ds[w].accessToken) <= IssueTime(final, username, start))
            && (final == states[0].cache || exists w :: 0 <= w < |ds| && final == Some(EntryOf(ds[w])))
  {
    CacheOnlyAdvances(ds, username, states, actions, 0, |states| - 1);
    CacheIsGenuine(ds, states, actions, |states| - 1);
    forall w: nat | w < |ds|
      ensures Iat(ds[w].accessToken) <= IssueTime(states[|states| - 1].cache, username, states[0].now)
    {
      ServedAlways(ds, username, states, actions, |states| - 1, w);
    }
  }

  // ---------------------------------------------------------------- why tokens must be unexpired

  function SampleToken(id: nat, iat: int, exp: int): Token {
    Token(id, Some(Claims(Some(iat), Some(exp), Some("access"), Some("72"), Some("mio"))))
  }

  const NEWER := SampleToken(1, 200, 400)
  const OLDER := Delivery(SampleToken(2, 100, 900), Some("72"))

  function OneWriter(now: int, cache: Token, lock: Option<nat>, pc: Pc): State {
    State(now, Some(Entry(Some(cache), Some("72"))), lock, [pc])
  }

  /** The cached token expires at 400 s, while the writer waits for the lock. */
  const LATE_RUN := [OneWriter(300_000, NEWER, None, Idle), OneWriter(300_000, NEWER, None, Waiting),
                     OneWriter(500_000, NEWER, None, Waiting), OneWriter(500_000, NEWER, Some(0), Holding),
                     OneWriter(500_000, NEWER, Some(0), Writing),
                     OneWriter(500_000, OLDER.accessToken, Some(0), Renamed)]
  const LATE_ACTIONS := [Begin(0), Tick(500_000), Acquire(0), Compare(0), Replace(0)]

  /**
   * Without that condition the cached issue time can fall: one undisturbed writer replaces a token
   * issued at 200 by one issued at 100, because the cached one has expired by the comparison.
   */
  lemma ExpiredTokenLosesItsRank()
    ensures Sensible([OLDER], "mio", LATE_RUN, LATE_ACTIONS) && !NeverExpires("mio", LATE_RUN)
    ensures IssueTime(LATE_RUN[0].cache, "mio", 300_000) == 200 && IssueTime(LATE_RUN[5].cache, "mio", 300_000) == 100
  {
    assert Principal(Some("72")) == Some("72");
    assert !Retain(LATE_RUN[3].cache, OLDER, 500_000);
    assert Expired(LATE_RUN[4].cache, "mio", LATE_RUN[0].now, LATE_RUN[4].now);
  }

  // ---------------------------------------------------------------- the broker boundary

  const MAX_DATE_MS := 8_640_000_000_000_000

  /** The environment names the seat: two agreeing names, or one. */
  function SeatName(primary: string, secondary: string): string {
    if primary != "" then primary else secondary
  }

  predicate IsNameChar(c: char) { 'a' <= c <= 'z' || IsDigit(c) }

  predicate ValidSeatName(name: string) {
    && 1 <= |name| <= 47
    && IsNameChar(name[0]) && IsNameChar(name[|name| - 1])
    && forall i :: 0 <= i < |name| ==> IsNameChar(name[i]) || name[i] == '-'
  }

  /** `synchronizeBrokerTokenCache` up to the write: the delivery it would write, or None for `false`. */
  function BrokerDelivery(token: Token, declaredExpiryMs: Option<int>, primary: string, secondary: string,
                          expectedUserId: string, now: int): (r: Option<Delivery>)
    requires SeatName(primary, secondary) != ""
  {
    var username := SeatName(primary, secondary);
    if !ValidSeatName(username) || (primary != "" && secondary != "" && primary != secondary) then None
    else if token.claims.None? then None
    else
      var c := token.claims.value;
      var userId := Principal(c.userId);
      if || c.username != Some(username) || userId.None? || c.tokenType != Some("access")
         || IssuedAt(token.claims, now).None?
         || c.exp.None? || c.exp.value * 1000 <= now || c.exp.value <= c.iat.value
         || MAX_DATE_MS < c.exp.value * 1000
         || (declaredExpiryMs.Some? && declaredExpiryMs.value != c.exp.value * 1000)
      then None
      else if expectedUserId != "" && Principal(Some(expectedUserId)) != userId then None
      else Some(Delivery(token, userId))
  }

  /**
   * Whatever the broker boundary lets through at some time of a run is admissible when its writer
   * begins, then or later.
   */
  lemma BrokerDeliversAdmissible(token: Token, declaredExpiryMs: Option<int>, primary: string, secondary: string,
                                 expectedUserId: string, checked: int, start: int, begun: int)
    requires SeatName(primary, secondary) != "" && start <= checked <= begun
    ensures var r := BrokerDelivery(token, declaredExpiryMs, primary, secondary, expectedUserId, checked);
            r.Some? ==> && r.value.accessToken == token
                        && Admissible(r.value, SeatName(primary, secondary), start, begun)
  {
    if token.claims.Some? {
      PrincipalIdempotent(token.claims.value.userId);
    }
  }

  lemma PrincipalIdempotent(value: Option<string>)
    ensures Principal(Principal(value)) == Principal(value)
  {
  }
}
