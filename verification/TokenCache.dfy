/**
  The tenant token cache under any interleaving of concurrent callers.  The mutex is taken
  twice: to look at the four cached fields, and to overwrite them one after the other.
 */
module TokenCache {
  import opened Wrappers
  import opened Text

  const RefreshSkew := 1800

  datatype Config = Config(appId: string, secret: string)

  /** The four cached fields; also what one successful fetch yields. */
  datatype Entry = Entry(token: string, expiresAt: int, appId: string, secret: string)

  const Empty := Entry("", 0, "", "")

  predicate IssuedFor(entry: Entry, config: Config) {
    entry.appId == config.appId && entry.secret == config.secret
  }

  predicate Usable(cached: Entry, config: Config, now: int) {
    cached.token != "" && now < cached.expiresAt - RefreshSkew && IssuedFor(cached, config)
  }

  datatype Phase =
    | WantCheck                              // about to lock for the lookup
    | Checking                               // holds the lock
    | Hit(token: string, at: int)            // found a token, still holds the lock
    | Miss                                   // found none, still holds the lock
    | Fetching                               // waits for the remote service, no lock
    | Fetched(entry: Entry)                  // about to lock for the overwrite
    | Storing(entry: Entry, written: nat)    // holds the lock, `written` fields are done
    | ServedFromCache(token: string, at: int)
    | ServedFromFetch(token: string)
    | Failed

  datatype Caller = Caller(config: Config, phase: Phase)

  datatype Shared = Shared(
    cached: Entry,
    holder: Option<nat>,
    now: int,
    fetched: set<Entry>,
    callers: map<nat, Caller>)

  predicate Holds(phase: Phase) {
    phase.Checking? || phase.Hit? || phase.Miss? || phase.Storing?
  }

  datatype Response = ResponseError | Token(token: string, expire: int)

  datatype Step =
    | Tick(seconds: nat)
    | Call(id: nat, config: Config)
    | Lock(id: nat)
    | Check(id: nat)
    | Unlock(id: nat)
    | Receive(id: nat, response: Response)
    | Write(id: nat)

  ghost predicate Enabled(s: Shared, step: Step) {
    match step
    case Tick(_) => true
    case Call(id, _) => id !in s.callers || s.callers[id].phase in {Failed} || Served(s.callers[id].phase)
    case Lock(id) => id in s.callers && s.holder.None? && (s.callers[id].phase.WantCheck? || s.callers[id].phase.Fetched?)
    case Check(id) => id in s.callers && s.callers[id].phase.Checking?
    case Unlock(id) =>
      && id in s.callers
      && (var phase := s.callers[id].phase; phase.Hit? || phase.Miss? || (phase.Storing? && phase.written == 4))
    case Receive(id, _) => id in s.callers && s.callers[id].phase.Fetching?
    case Write(id) => id in s.callers && s.callers[id].phase.Storing? && s.callers[id].phase.written < 4
  }

  predicate Served(phase: Phase) {
    phase.ServedFromCache? || phase.ServedFromFetch?
  }

  function SetPhase(s: Shared, id: nat, phase: Phase): Shared
    requires id in s.callers
  {
    s.(callers := s.callers[id := s.callers[id].(phase := phase)])
  }

  /** One field of the cache is assigned at a time. */
  function WriteField(cached: Entry, entry: Entry, field: nat): Entry
    requires field < 4
  {
    match field
    case 0 => cached.(token := entry.token)
    case 1 => cached.(expiresAt := entry.expiresAt)
    case 2 => cached.(appId := entry.appId)
    case _ => cached.(secret := entry.secret)
  }

  function Apply(s: Shared, step: Step): Shared
    requires Enabled(s, step)
  {
    match step
    case Tick(seconds) => s.(now := s.now + seconds)
    case Call(id, config) => s.(callers := s.callers[id := Caller(config, WantCheck)])
    case Lock(id) =>
      var phase := s.callers[id].phase;
      SetPhase(s, id, if phase.WantCheck? then Checking else Storing(phase.entry, 0)).(holder := Some(id))
    case Check(id) =>
      SetPhase(s, id, if Usable(s.cached, s.callers[id].config, s.now) then Hit(s.cached.token, s.now) else Miss)
    case Unlock(id) =>
      var phase := s.callers[id].phase;
      SetPhase(s, id,
               if phase.Hit? then ServedFromCache(phase.token, phase.at)
               else if phase.Miss? then Fetching
               else ServedFromFetch(phase.entry.token)).(holder := None)
    case Receive(id, response) =>
      (match response
       case ResponseError => SetPhase(s, id, Failed)
       case Token(token, expire) =>
         if TrimSpace(token) == "" then SetPhase(s, id, Failed)
         else
           var config := s.callers[id].config;
           var entry := Entry(token, s.now + expire, config.appId, config.secret);
           SetPhase(s, id, Fetched(entry)).(fetched := s.fetched + {entry}))
    case Write(id) =>
      var phase := s.callers[id].phase;
      SetPhase(s, id, Storing(phase.entry, phase.written + 1))
      .(cached := WriteField(s.cached, phase.entry, phase.written))
  }

  ghost predicate Takes(s: Shared, step: Step, after: Shared) {
    Enabled(s, step) && after == Apply(s, step)
  }

  ghost predicate Init(s: Shared) {
    s.cached == Empty && s.holder.None? && s.fetched == {} && s.callers == map[]
  }

  ghost predicate TakesAt(states: seq<Shared>, steps: seq<Step>, i: nat)
    requires |states| == |steps| + 1 && i < |steps|
  {
    Takes(states[i], steps[i], states[i + 1])
  }

  ghost predicate IsRun(states: seq<Shared>, steps: seq<Step>) {
    && |states| == |steps| + 1 && Init(states[0])
    && forall i :: 0 <= i < |steps| ==> TakesAt(states, steps, i)
  }

  // ----- what every interleaving keeps -----

  /** The four fields as a whole: untouched, or all from one fetch. */
  ghost predicate Whole(s: Shared) {
    s.cached == Empty || s.cached in s.fetched
  }

  /** A fetch with this token was made for the configuration. */
  ghost predicate FetchedFor(s: Shared, token: string, config: Config) {
    exists entry :: entry in s.fetched && entry.token == token && IssuedFor(entry, config)
  }

  ghost predicate FreshAt(s: Shared, token: string, config: Config, at: int) {
    exists entry ::
      && entry in s.fetched && entry.token == token && IssuedFor(entry, config)
      && at + RefreshSkew < entry.expiresAt
  }

  ghost predicate CallerOk(s: Shared, id: nat, caller: Caller) {
    && (Holds(caller.phase) <==> s.holder == Some(id))
    && match caller.phase
       case Hit(token, at) => FreshAt(s, token, caller.config, at) && at <= s.now
       case ServedFromCache(token, at) => FreshAt(s, token, caller.config, at) && at <= s.now
       case ServedFromFetch(token) => FetchedFor(s, token, caller.config)
       case Fetched(entry) => entry in s.fetched && IssuedFor(entry, caller.config)
       case Storing(entry, written) =>
         && entry in s.fetched && IssuedFor(entry, caller.config) && written <= 4
         && (written >= 1 ==> s.cached.token == entry.token)
         && (written >= 2 ==> s.cached.expiresAt == entry.expiresAt)
         && (written >= 3 ==> s.cached.appId == entry.appId)
         && (written >= 4 ==> s.cached.secret == entry.secret)
       case _ => true
  }

  ghost predicate Inv(s: Shared) {
    && (forall id :: id in s.callers ==> CallerOk(s, id, s.callers[id]))
    && (s.holder.Some? ==> s.holder.value in s.callers)
    && ((s.holder.None? || !s.callers[s.holder.value].phase.Storing?) ==> Whole(s))
    && (s.holder.Some? && s.callers[s.holder.value].phase.Storing? && s.callers[s.holder.value].phase.written == 0 ==> Whole(s))
  }

  /** A caller is not disturbed when time passes, fetches are added, or others write without it. */
  lemma CallerStays(s: Shared, s': Shared, id: nat, caller: Caller)
    requires CallerOk(s, id, caller)
    requires s.fetched <= s'.fetched && s.now <= s'.now
    requires caller.phase.Storing? ==> s'.cached == s.cached
    requires s'.holder == Some(id) <==> s.holder == Some(id)
    ensures CallerOk(s', id, caller)
  {
    match caller.phase
    case Hit(token, at) =>
      var entry :| entry in s.fetched && entry.token == token && IssuedFor(entry, caller.config)
                   && at + RefreshSkew < entry.expiresAt;
      assert entry in s'.fetched;
    case ServedFromCache(token, at) =>
      var entry :| entry in s.fetched && entry.token == token && IssuedFor(entry, caller.config)
                   && at + RefreshSkew < entry.expiresAt;
      assert entry in s'.fetched;
    case ServedFromFetch(token) =>
      var entry :| entry in s.fetched && entry.token == token && IssuedFor(entry, caller.config);
      assert entry in s'.fetched;
    case _ =>
  }

  lemma StepKeepsInv(s: Shared, step: Step)
    requires Inv(s) && Enabled(s, step)
    ensures Inv(Apply(s, step))
  {
    var s' := Apply(s, step);
    forall id | id in s'.callers ensures CallerOk(s', id, s'.callers[id]) {
      if id in s.callers && s'.callers[id] == s.callers[id] {
        CallerStays(s, s', id, s.callers[id]);
      } else {
        MoverOk(s, step, id);
      }
    }
  }

  predicate Mover(step: Step, id: nat) {
    !step.Tick? && step.id == id
  }

  lemma MoverOk(s: Shared, step: Step, id: nat)
    requires Inv(s) && Enabled(s, step) && Mover(step, id)
    ensures var s' := Apply(s, step); CallerOk(s', id, s'.callers[id])
  {
    if id in s.callers {
      assert CallerOk(s, id, s.callers[id]);
    }
    var s' := Apply(s, step);
    match step
    case Check(_) =>
      if Usable(s.cached, s.callers[id].config, s.now) {
        assert s.cached in s'.fetched;
      }
    case Unlock(_) =>
      var phase := s.callers[id].phase;
      if phase.Storing? {
        assert phase.entry in s'.fetched;
      } else if phase.Hit? {
        CallerStays(s, s.(now := s'.now), id, s.callers[id]);
      }
    case _ =>
  }

  lemma {:induction false} ReachableInv(states: seq<Shared>, steps: seq<Step>, i: nat)
    requires IsRun(states, steps) && i < |states|
    ensures Inv(states[i])
  {
    if i > 0 {
      ReachableInv(states, steps, i - 1);
      assert TakesAt(states, steps, i - 1);
      StepKeepsInv(states[i - 1], steps[i - 1]);
    }
  }

  /** Whenever nobody holds the mutex, the four cached fields come from one and the same fetch. */
  lemma CacheIsNeverMixed(states: seq<Shared>, steps: seq<Step>, i: nat)
    requires IsRun(states, steps) && i < |states| && states[i].holder.None?
    ensures states[i].cached == Empty || states[i].cached in states[i].fetched
  {
    ReachableInv(states, steps, i);
  }

  /** At most one caller is inside the critical sections. */
  lemma MutualExclusion(states: seq<Shared>, steps: seq<Step>, i: nat, a: nat, b: nat)
    requires IsRun(states, steps) && i < |states|
    requires a in states[i].callers && Holds(states[i].callers[a].phase)
    requires b in states[i].callers && Holds(states[i].callers[b].phase)
    ensures a == b
  {
    ReachableInv(states, steps, i);
    assert CallerOk(states[i], a, states[i].callers[a]) && CallerOk(states[i], b, states[i].callers[b]);
  }

  // ----- which fetch a served token comes from -----

  /** Step `j` is a response with this token for the configuration, to expire at the given time. */
  ghost predicate ReceivesAt(
    states: seq<Shared>, steps: seq<Step>, j: nat, config: Config, token: string, expiresAt: int)
  {
    && j < |steps| && j < |states| && steps[j].Receive? && steps[j].id in states[j].callers
    && states[j].callers[steps[j].id].config == config
    && steps[j].response == Token(token, expiresAt - states[j].now)
  }

  /** Step `l` is the caller's lookup, when it asks for the configuration and the cache holds the token. */
  ghost predicate LooksUpAt(states: seq<Shared>, steps: seq<Step>, l: nat, id: nat, config: Config, token: string) {
    && l < |steps| && l < |states| && steps[l] == Check(id) && id in states[l].callers
    && states[l].callers[id].config == config && states[l].cached.token == token
    && Usable(states[l].cached, config, states[l].now)
  }

  /** Every fetched entry is what some response said. */
  lemma {:induction false} FetchedWasReceived(states: seq<Shared>, steps: seq<Step>, i: nat, entry: Entry)
    requires IsRun(states, steps) && i < |states| && entry in states[i].fetched
    ensures exists j ::
              0 <= j < i && ReceivesAt(states, steps, j, Config(entry.appId, entry.secret), entry.token, entry.expiresAt)
  {
    assert TakesAt(states, steps, i - 1);
    if entry in states[i - 1].fetched {
      FetchedWasReceived(states, steps, i - 1, entry);
    } else {
      assert ReceivesAt(states, steps, i - 1, Config(entry.appId, entry.secret), entry.token, entry.expiresAt);
    }
  }

  /** A caller with a token from the cache has looked it up. */
  lemma {:induction false} HitWasLookedUp(states: seq<Shared>, steps: seq<Step>, i: nat, id: nat) returns (l: nat)
    requires IsRun(states, steps) && i < |states| && id in states[i].callers
    requires states[i].callers[id].phase.Hit? || states[i].callers[id].phase.ServedFromCache?
    ensures l < i && LooksUpAt(states, steps, l, id, states[i].callers[id].config, states[i].callers[id].phase.token)
  {
    assert TakesAt(states, steps, i - 1);
    if steps[i - 1] == Check(id) {
      l := i - 1;
    } else {
      l := HitWasLookedUp(states, steps, i - 1, id);
    }
  }

  /** What the lookup finds was cached by a whole earlier fetch. */
  lemma LookupFindsFetch(states: seq<Shared>, steps: seq<Step>, l: nat, id: nat, config: Config, token: string)
    requires IsRun(states, steps) && l < |steps| && LooksUpAt(states, steps, l, id, config, token)
    ensures states[l].cached in states[l].fetched
  {
    ReachableInv(states, steps, l);
    assert TakesAt(states, steps, l);
    assert CallerOk(states[l], id, states[l].callers[id]);
  }

  /** A token served from the cache comes from an earlier response for the caller's own credentials, and the caller's
      lookup was more than half an hour before the expiry that the response gave. */
  lemma ServedTokenIsOwnAndFresh(states: seq<Shared>, steps: seq<Step>, i: nat, id: nat)
    requires IsRun(states, steps) && i < |states| && id in states[i].callers
    requires states[i].callers[id].phase.ServedFromCache?
    ensures var caller := states[i].callers[id];
            exists j, l, expiresAt ::
              && 0 <= j < l < i && steps[l] == Check(id)
              && ReceivesAt(states, steps, j, caller.config, caller.phase.token, expiresAt)
              && states[l].now + 1800 < expiresAt
  {
    var caller := states[i].callers[id];
    var l: nat := HitWasLookedUp(states, steps, i, id);
    LookupFindsFetch(states, steps, l, id, caller.config, caller.phase.token);
    FetchedWasReceived(states, steps, l, states[l].cached);
  }

  /** A token served after a request is the response to a request for the caller's own credentials. */
  lemma FetchedTokenIsOwn(states: seq<Shared>, steps: seq<Step>, i: nat, id: nat)
    requires IsRun(states, steps) && i < |states| && id in states[i].callers
    requires states[i].callers[id].phase.ServedFromFetch?
    ensures var caller := states[i].callers[id];
            exists j, expiresAt :: 0 <= j < i && ReceivesAt(states, steps, j, caller.config, caller.phase.token, expiresAt)
  {
    ReachableInv(states, steps, i);
    var caller := states[i].callers[id];
    assert CallerOk(states[i], id, caller);
    var entry :| entry in states[i].fetched && entry.token == caller.phase.token && IssuedFor(entry, caller.config);
    FetchedWasReceived(states, steps, i, entry);
  }

  /** A lookup is a hit iff the cache holds a token for the same credentials that does not expire within half an hour. */
  lemma LookupHitsIff(s: Shared, id: nat)
    requires Enabled(s, Check(id))
    ensures var config, phase := s.callers[id].config, Apply(s, Check(id)).callers[id].phase;
            phase == if s.cached.token != "" && s.cached.appId == config.appId && s.cached.secret == config.secret
                        && s.now + 1800 < s.cached.expiresAt
                     then Hit(s.cached.token, s.now) else Miss
  {
  }

  // ----- one call by itself -----

  /** What a call leaves in the cache, returns, and whether it made a request. */
  datatype Reply = Reply(cached: Entry, token: Result<string, ()>, requested: bool)

  function TokenCall(cached: Entry, config: Config, now: int, response: Response, received: int): Reply {
    if Usable(cached, config, now) then Reply(cached, Success(cached.token), false)
    else if response.ResponseError? || TrimSpace(response.token) == "" then Reply(cached, Failure(()), true)
    else Reply(Entry(response.token, received + response.expire, config.appId, config.secret), Success(response.token), true)
  }

  /** After a fetch, a later call gets the fetched token without a request iff it asks with the same credentials and
      more than half an hour before the expiry; otherwise it makes a request. */
  lemma ServedAgainIff(
    cached: Entry, first: Config, now: int, response: Response, received: int,
    second: Config, later: int, response2: Response, received2: int)
    ensures var fetch := TokenCall(cached, first, now, response, received);
            var call := TokenCall(fetch.cached, second, later, response2, received2);
            fetch.requested && fetch.token.Success? ==>
              && (!call.requested <==> && second.appId == first.appId && second.secret == first.secret
                                       && later + 1800 < received + response.expire)
              && (!call.requested ==> call.token == fetch.token && call.cached == fetch.cached)
  {
  }

  class HttpClient {
    var cachedToken: string
    var cachedExpiresAt: int
    var cachedAppId: string
    var cachedSecret: string

    constructor ()
      ensures Cached() == Empty
    {
      cachedToken, cachedExpiresAt, cachedAppId, cachedSecret := "", 0, "", "";
    }

    function Cached(): Entry
      reads this
    {
      Entry(cachedToken, cachedExpiresAt, cachedAppId, cachedSecret)
    }

    /** `now` is the time of the lookup and `received` that of the response. */
    method TenantAccessToken(config: Config, now: int, response: Response, received: int)
      returns (token: Result<string, ()>, requested: bool)
      modifies this
      ensures Reply(Cached(), token, requested) == TokenCall(old(Cached()), config, now, response, received)
      ensures !requested <==> && old(cachedToken) != "" && old(cachedAppId) == config.appId
                              && old(cachedSecret) == config.secret && now + 1800 < old(cachedExpiresAt)
      ensures !requested ==> token == Success(old(cachedToken)) && Cached() == old(Cached())
      ensures requested ==>
                if response.Token? && TrimSpace(response.token) != ""
                then token == Success(response.token)
                     && Cached() == Entry(response.token, received + response.expire, config.appId, config.secret)
                else token.Failure? && Cached() == old(Cached())
    {
      requested := false;
      if cachedToken != "" && now < cachedExpiresAt - RefreshSkew
         && cachedAppId == config.appId && cachedSecret == config.secret {
        token := Success(cachedToken);
        return;
      }
      requested := true;
      if response.ResponseError? || TrimSpace(response.token) == "" {
        token := Failure(());
        return;
      }
      cachedToken := response.token;
      cachedExpiresAt := received + response.expire;
      cachedAppId := config.appId;
      cachedSecret := config.secret;
      token := Success(response.token);
    }
  }
}
