/** Why a writer of the agent token cache can fail, and that one left alone finishes, and with what. */
module AgentTokenProgress {
  import opened Wrappers
  import opened AgentTokenCache

  // ---------------------------------------------------------------- failing

  /** A positive decimal numeral. */
  predicate IsNumeral(text: string) {
    text != "" && '1' <= text[0] <= '9' && forall i :: 0 <= i < |text| ==> '0' <= text[i] <= '9'
  }

  /** The cached record and the delivered one name two principals. */
  predicate NamesAnother(cache: Option<Entry>, d: Delivery) {
    && cache.Some? && cache.value.userId.Some? && d.userId.Some? && cache.value.userId != d.userId
    && IsNumeral(cache.value.userId.value) && IsNumeral(d.userId.value)
  }

  lemma PrincipalIsNumeral(value: Option<string>)
    ensures Principal(value) == if value.Some? && IsNumeral(value.value) then value else None
  {
    if value.Some? {
      var text := value.value;
      if forall c :: c in text ==> IsDigit(c) {
        assert forall i :: 0 <= i < |text| ==> text[i] in text;
      }
    }
  }

  lemma ConflictIsNaming(cache: Option<Entry>, d: Delivery)
    ensures Conflict(cache, d) <==> NamesAnother(cache, d)
  {
    PrincipalIsNumeral(d.userId);
    if cache.Some? {
      PrincipalIsNumeral(cache.value.userId);
    }
  }

  /** Giving up, dying, or meeting the record of another principal on reading the file. */
  predicate FailsAt(ds: seq<Delivery>, s: State, a: Action, w: nat)
    requires w < |ds|
  {
    || a == TimeOut(w) || a == Die(w)
    || (a in {Begin(w), Compare(w)} && NamesAnother(s.cache, ds[w]))
  }

  lemma StepFails(ds: seq<Delivery>, s: State, a: Action, w: nat)
    requires |s.pcs| == |ds| && Enabled(s, a) && w < |ds|
    ensures Apply(ds, s, a).pcs[w] == Failed <==> s.pcs[w] == Failed || FailsAt(ds, s, a, w)
  {
    ConflictIsNaming(s.cache, ds[w]);
  }

  /** A writer has failed if and only if it timed out, died, or met a record that names another principal. */
  lemma {:induction false} FailedExactly(ds: seq<Delivery>, states: seq<State>, actions: seq<Action>, i: nat, w: nat)
    requires Behaviour(ds, states, actions) && Initial(states[0]) && i < |states| && w < |ds|
    ensures states[i].pcs[w] == Failed <==> exists j :: 0 <= j < i && FailsAt(ds, states[j], actions[j], w)
  {
    if i > 0 {
      FailedExactly(ds, states, actions, i - 1, w);
      StepFails(ds, states[i - 1], actions[i - 1], w);
    }
  }

  // ---------------------------------------------------------------- an undisturbed writer

  /** A step of writer w that is not its end. */
  predicate OwnStep(a: Action, w: nat) { a in {Begin(w), Acquire(w), Compare(w), Replace(w), Release(w)} }

  /** From state i on only writer w moves, and time. */
  ghost predicate LeftAlone(actions: seq<Action>, i: nat, w: nat) {
    forall k :: i <= k < |actions| ==> OwnStep(actions[k], w) || actions[k].Tick?
  }

  /** The steps of writer w from position i to position j. */
  function OwnSteps(actions: seq<Action>, i: nat, j: nat, w: nat): nat
    requires i <= j <= |actions|
    decreases j
  {
    if i == j then 0 else OwnSteps(actions, i, j - 1, w) + if OwnStep(actions[j - 1], w) then 1 else 0
  }

  /** There is no usable token, an older one, or one that has expired by now. */
  ghost predicate Outdated(cache: Option<Entry>, d: Delivery, username: string, start: int, now: int) {
    || Blank(cache, username, start)
    || IssueTime(cache, username, start) < Iat(d.accessToken)
    || Expired(cache, username, start, now)
  }

  function Rank(pc: Pc): nat {
    match pc
    case Idle => 0
    case Waiting => 1
    case Holding => 2
    case Writing => 3
    case Renamed => 4
    case _ => 5
  }

  /** Where writer w stands, having met the cache `before` at time `since`. */
  ghost predicate Stage(d: Delivery, username: string, start: int, before: Option<Entry>, since: int, s: State, w: nat)
    requires w < |s.pcs|
  {
    && since <= s.now
    && match s.pcs[w]
       case Idle => s.cache == before && s.lock == None
       case Waiting => s.cache == before && s.lock == None
       case Holding => s.cache == before && s.lock == Some(w)
       case Writing => s.cache == before && s.lock == Some(w) && Outdated(before, d, username, start, s.now)
       case Renamed => s.cache == Some(EntryOf(d)) && s.lock == Some(w) && Outdated(before, d, username, start, s.now)
       case Finished => s.lock == None && Settled(d, username, start, before, since, s)
       case Failed => false
  }

  /** The cache holds the record if what was there was outdated at the beginning, and only if it is by now. */
  ghost predicate Settled(d: Delivery, username: string, start: int, before: Option<Entry>, since: int, s: State) {
    && (Outdated(before, d, username, start, since) ==> s.cache == Some(EntryOf(d)))
    && (s.cache == before || (s.cache == Some(EntryOf(d)) && Outdated(before, d, username, start, s.now)))
  }

  lemma SameTokenSameRecord(d: Delivery, username: string, start: int, cache: Option<Entry>, now: int)
    requires Admissible(d, username, start, now) && CacheInv(username, start, cache, now) && !NamesAnother(cache, d)
    requires cache.Some? && cache.value.accessToken == Some(d.accessToken)
    ensures cache == Some(EntryOf(d)) && !Blank(cache, username, start)
  {
    PrincipalIsNumeral(d.userId);
    PrincipalIsNumeral(cache.value.userId);
    PrincipalIsNumeral(d.accessToken.claims.value.userId);
  }

  lemma CompareDecides(d: Delivery, username: string, start: int, cache: Option<Entry>, now: int)
    requires CacheInv(username, start, cache, now) && start <= now && Admissible(d, username, start, now)
    requires !NamesAnother(cache, d)
    ensures if Retain(cache, d, now) then cache == Some(EntryOf(d)) || !Outdated(cache, d, username, start, now)
            else Outdated(cache, d, username, start, now)
  {
    ConflictIsNaming(cache, d);
    if cache.Some? && cache.value.accessToken == Some(d.accessToken) {
      SameTokenSameRecord(d, username, start, cache, now);
    } else if !Blank(cache, username, start) {
      RetainExactly(cache.value, d, username, now);
    }
  }

  lemma OutdatedStays(cache: Option<Entry>, d: Delivery, username: string, start: int, now: int, later: int)
    requires Outdated(cache, d, username, start, now) && now <= later
    ensures Outdated(cache, d, username, start, later)
  {
  }

  lemma StepKeepsStage(ds: seq<Delivery>, username: string, start: int, before: Option<Entry>, since: int, s: State,
                       a: Action, w: nat)
    requires |s.pcs| == |ds| && w < |ds| && Enabled(s, a) && (OwnStep(a, w) || a.Tick?) && start <= s.now
    requires Stage(ds[w], username, start, before, since, s, w) && !NamesAnother(before, ds[w])
    requires CacheInv(username, start, s.cache, s.now)
    requires s.pcs[w] != Idle || a == Begin(w) ==> Admissible(ds[w], username, start, s.now)
    ensures Stage(ds[w], username, start, before, since, Apply(ds, s, a), w)
    ensures OwnStep(a, w) ==> Rank(s.pcs[w]) < Rank(Apply(ds, s, a).pcs[w])
    ensures !OwnStep(a, w) ==> Rank(s.pcs[w]) == Rank(Apply(ds, s, a).pcs[w])
  {
    var d := ds[w];
    ConflictIsNaming(before, d);
    match a
    case Tick(later) =>
      if Outdated(before, d, username, start, s.now) {
        OutdatedStays(before, d, username, start, s.now, later);
      }
    case Begin(_) =>
      if before.Some? && before.value.accessToken == Some(d.accessToken) {
        SameTokenSameRecord(d, username, start, before, s.now);
      }
    case Compare(_) =>
      CompareDecides(d, username, start, before, s.now);
      if Outdated(before, d, username, start, since) {
        OutdatedStays(before, d, username, start, since, s.now);
      }
    case _ =>
  }

  lemma {:induction false} StageAlways(ds: seq<Delivery>, username: string, states: seq<State>, actions: seq<Action>,
                                       i: nat, j: nat, w: nat)
    requires Sensible(ds, username, states, actions) && i <= j < |states| && w < |ds|
    requires states[i].lock == None && states[i].pcs[w] in {Idle, Waiting} && !NamesAnother(states[i].cache, ds[w])
    requires LeftAlone(actions, i, w)
    ensures Stage(ds[w], username, states[0].now, states[i].cache, states[i].now, states[j], w)
    ensures OwnSteps(actions, i, j, w) + Rank(states[i].pcs[w]) <= Rank(states[j].pcs[w])
    decreases j
  {
    if i < j {
      StageAlways(ds, username, states, actions, i, j - 1, w);
      InvAlways(ds, username, states, actions, j - 1);
      assert WriterInv(ds[w], username, states[0].now, states[j - 1], states[j - 1].pcs[w]);
      StepKeepsStage(ds, username, states[0].now, states[i].cache, states[i].now, states[j - 1], actions[j - 1], w);
    }
  }

  /** What writer w does next. */
  function NextStep(pc: Pc, w: nat): Action {
    match pc
    case Idle => Begin(w)
    case Waiting => Acquire(w)
    case Holding => Compare(w)
    case Writing => Replace(w)
    case _ => Release(w)
  }

  /**
   * From any state of any run in which the lock is free and the cache names no other principal: a writer
   * that is left alone is never stuck and finishes after at most five steps of its own. Then the cache
   * holds its record if the token there was unusable, expired or older, and is unchanged if it was not.
   */
  lemma {:induction false} LoneWriterFinishes(ds: seq<Delivery>, username: string, states: seq<State>,
                                              actions: seq<Action>, i: nat,
                           w: nat)
    requires Sensible(ds, username, states, actions) && i < |states| && w < |ds|
    requires states[i].lock == None && states[i].pcs[w] in {Idle, Waiting} && !NamesAnother(states[i].cache, ds[w])
    requires LeftAlone(actions, i, w)
    ensures var first, last, start := states[i], states[|states| - 1], states[0].now;
            && OwnSteps(actions, i, |actions|, w) <= 5
            && (last.pcs[w] == Finished || exists a :: OwnStep(a, w) && Enabled(last, a))
            && (last.pcs[w] == Finished ==>
                  && last.lock == None
                  && (Outdated(first.cache, ds[w], username, start, first.now) ==> last.cache == Some(EntryOf(ds[w])))
                  && (!Outdated(first.cache, ds[w], username, start, last.now) ==> last.cache == first.cache))
  {
    var last := states[|states| - 1];
    StageAlways(ds, username, states, actions, i, |states| - 1, w);
    if last.pcs[w] != Finished {
      var a := NextStep(last.pcs[w], w);
      assert OwnStep(a, w) && Enabled(last, a);
    }
  }

  // ---------------------------------------------------------------- a token delivered again

  /** The cached token is the delivered one. */
  predicate IsCached(cache: Option<Entry>, d: Delivery) {
    cache.Some? && cache.value.accessToken == Some(d.accessToken)
  }

  lemma {:induction false} WritingIsNew(ds: seq<Delivery>, states: seq<State>, actions: seq<Action>, i: nat, w: nat)
    requires Behaviour(ds, states, actions) && Initial(states[0]) && i < |states| && w < |ds|
    ensures states[i].pcs[w] == Writing ==> !IsCached(states[i].cache, ds[w])
  {
    if i > 0 {
      WritingIsNew(ds, states, actions, i - 1, w);
      LockAlways(ds, states, actions, i - 1);
    }
  }

  /** No token is written over itself. */
  lemma NeverRewritten(ds: seq<Delivery>, states: seq<State>, actions: seq<Action>, i: nat, w: nat)
    requires Behaviour(ds, states, actions) && Initial(states[0]) && i < |actions| && w < |ds|
    requires actions[i] == Replace(w)
    ensures !IsCached(states[i].cache, ds[w])
  {
    WritingIsNew(ds, states, actions, i, w);
  }

  lemma {:induction false} FinishedStays(ds: seq<Delivery>, states: seq<State>, actions: seq<Action>, i: nat, j: nat,
                                         w: nat)
    requires Behaviour(ds, states, actions) && i <= j < |states| && w < |ds| && states[i].pcs[w] == Finished
    ensures states[j].pcs[w] == Finished
    decreases j
  {
    if i < j {
      FinishedStays(ds, states, actions, i, j - 1, w);
    }
  }

  /** A writer that finds its token in the file is done: it never asks for the lock. */
  lemma CachedTokenTakesNoLock(ds: seq<Delivery>, states: seq<State>, actions: seq<Action>, i: nat, j: nat, w: nat)
    requires Behaviour(ds, states, actions) && i < |actions| && w < |ds| && actions[i] == Begin(w)
    requires IsCached(states[i].cache, ds[w]) && !NamesAnother(states[i].cache, ds[w])
    requires i < j < |actions|
    ensures !OwnStep(actions[j], w) && states[i + 1].lock == states[i].lock
  {
    ConflictIsNaming(states[i].cache, ds[w]);
    FinishedStays(ds, states, actions, i + 1, j, w);
  }

  // ---------------------------------------------------------------- what the boundary lets through

  /** A lower-case letter or a digit, by its code. */
  predicate IsPlain(c: char) {
    var n := c as int;
    48 <= n <= 57 || 97 <= n <= 122
  }

  /** Hyphens stand between two other characters of the name, next to each other or not. */
  lemma SeatNamesExactly(name: string)
    ensures ValidSeatName(name)
            <==> && name != "" && |name| < 48 && '-' !in [name[0], name[|name| - 1]]
                 && forall c :: c in name ==> IsPlain(c) || c == '-'
  {
    if ValidSeatName(name) {
      forall c | c in name
        ensures IsPlain(c) || c == '-'
      {
        var i :| 0 <= i < |name| && name[i] == c;
        assert IsNameChar(name[i]) || name[i] == '-';
      }
    } else if forall c :: c in name ==> IsPlain(c) || c == '-' {
      forall i | 0 <= i < |name|
        ensures IsPlain(name[i]) || name[i] == '-'
      {
        assert name[i] in name;
      }
    }
  }

  /** The environment names the seat, once or twice. */
  predicate NamesSeat(primary: string, secondary: string, seat: string) {
    ValidSeatName(seat) && (primary == seat || (primary == "" && secondary == seat)) && secondary in ["", seat]
  }

  /**
   * The boundary delivers a token if and only if the environment names its seat and no other user, the
   * token is an access token of that seat's user, issued, not expired, and its expiry is a date after
   * its issue and the declared one.
   */
  lemma BrokerDeliversExactly(token: Token, declaredExpiryMs: Option<int>, primary: string, secondary: string,
                              expectedUserId: string, now: int)
    requires primary != "" || secondary != ""
    ensures BrokerDelivery(token, declaredExpiryMs, primary, secondary, expectedUserId, now).Some? <==>
            && token.claims.Some? && token.claims.value.username.Some?
            && NamesSeat(primary, secondary, token.claims.value.username.value)
            && WellFormed(token, token.claims.value.userId, token.claims.value.username.value)
            && Issued(token, now) && LiveAt(token, now)
            && Iat(token) < token.claims.value.exp.value <= MAX_DATE_MS / 1000
            && declaredExpiryMs in {None, Some(token.claims.value.exp.value * 1000)}
            && (expectedUserId == "" || Principal(Some(expectedUserId)) == Principal(token.claims.value.userId))
  {
  }
}
