/**
 * The login chain of the MCP OAuth provider: login state, authorization code, refresh tokens, and
 * the one API key that travels along it. `State` is the provider's dictionaries together with the
 * callbacks in progress and what has happened so far; a run is any interleaving of the steps.
 */
module OAuth {
  import opened Sequences

  type Secret = string
  type ClientId = string

  /** What the client asks for. */
  datatype Params = Params(
    scopes: Option<seq<string>>, state: Option<string>,
    codeChallenge: string, redirectUri: string, explicitUri: bool, resource: Option<string>)
  datatype Login = Login(clientId: ClientId, params: Params)
  /** A callback that has popped its login; `key` is set once the API key row is committed. */
  datatype Flight = Flight(login: Login, key: Option<Secret>)
  datatype IssuedCode = IssuedCode(
    clientId: ClientId, scopes: seq<string>,
    codeChallenge: string, redirectUri: string, explicitUri: bool, resource: Option<string>, apiKey: Secret)
  datatype Issued = Issued(clientId: ClientId, scopes: seq<string>, apiKey: Secret)

  datatype State = State(
    pending: map<Secret, Login>,
    flights: map<Secret, Flight>,
    codes: map<Secret, IssuedCode>,
    refresh: map<Secret, Issued>,
    // history: every secret drawn, every secret taken out, each login as it was begun, which login each key came from
    drawn: set<Secret>,
    spent: set<Secret>,
    begun: map<Secret, Login>,
    origin: map<Secret, Secret>)

  datatype Event =
    | Authorize(clientId: ClientId, params: Params, login: Secret)
    | PopLogin(login: Secret)
    | MintKey(login: Secret, key: Secret)
    | IssueCode(login: Secret, code: Secret)
    | AbandonLogin(login: Secret)
    | ExchangeCode(clientId: ClientId, code: Secret, newRefresh: Secret)
    | ExchangeRefresh(clientId: ClientId, token: Secret, scopes: seq<string>, newRefresh: Secret)
    | Revoke(token: Secret)

  const START := State(map[], map[], map[], map[], {}, {}, map[], map[])

  /** The code carries what the client asked for, and the key. */
  function CodeFor(login: Login, apiKey: Secret): IssuedCode {
    var p := login.params;
    var scopes := if p.scopes.Some? then p.scopes.value else [];
    IssuedCode(login.clientId, scopes, p.codeChallenge, p.redirectUri, p.explicitUri, p.resource, apiKey)
  }

  /** `_issue_tokens`: the key moves to a newly drawn refresh token. */
  function IssueTokens(s: State, clientId: ClientId, apiKey: Secret, scopes: seq<string>, newRefresh: Secret): State {
    s.(refresh := s.refresh[newRefresh := Issued(clientId, scopes, apiKey)], drawn := s.drawn + {newRefresh})
  }

  function TakeCode(s: State, code: Secret): State {
    s.(codes := s.codes - {code}, spent := s.spent + {code})
  }

  function TakeRefresh(s: State, token: Secret): State {
    s.(refresh := s.refresh - {token}, spent := s.spent + {token})
  }

  function Next(s: State, e: Event): State {
    match e
    case Authorize(clientId, params, login) =>
      s.(pending := s.pending[login := Login(clientId, params)],
         drawn := s.drawn + {login},
         begun := s.begun[login := Login(clientId, params)])
    case PopLogin(login) =>
      if login !in s.pending then s
      else s.(pending := s.pending - {login},
              flights := s.flights[login := Flight(s.pending[login], None)],
              spent := s.spent + {login})
    case MintKey(login, key) =>
      if login !in s.flights || s.flights[login].key.Some? then s
      else s.(flights := s.flights[login := s.flights[login].(key := Some(key))],
              drawn := s.drawn + {key},
              origin := s.origin[key := login])
    case IssueCode(login, code) =>
      if login !in s.flights || s.flights[login].key.None? then s
      else
        var f := s.flights[login];
        s.(flights := s.flights - {login},
           codes := s.codes[code := CodeFor(f.login, f.key.value)],
           drawn := s.drawn + {code})
    case AbandonLogin(login) => s.(flights := s.flights - {login})
    case ExchangeCode(clientId, code, newRefresh) =>
      if code !in s.codes then s
      else
        var issued := s.codes[code];
        // The code is popped before the client is compared, so a mismatch burns it.
        var popped := TakeCode(s, code);
        if issued.clientId != clientId then popped
        else IssueTokens(popped, clientId, issued.apiKey, issued.scopes, newRefresh)
    case ExchangeRefresh(clientId, token, scopes, newRefresh) =>
      if token !in s.refresh then s
      else
        var issued := s.refresh[token];
        var popped := TakeRefresh(s, token);
        if issued.clientId != clientId then popped
        else IssueTokens(popped, clientId, issued.apiKey, scopes, newRefresh)
    case Revoke(token) =>
      if token !in s.refresh then s
      else TakeRefresh(s, token)
  }

  /** The secret that the step draws, if any. */
  function Draws(e: Event): Option<Secret> {
    match e
    case Authorize(_, _, login) => Some(login)
    case MintKey(_, key) => Some(key)
    case IssueCode(_, code) => Some(code)
    case ExchangeCode(_, _, newRefresh) => Some(newRefresh)
    case ExchangeRefresh(_, _, _, newRefresh) => Some(newRefresh)
    case _ => None
  }

  /** The login state, code or refresh token that the step takes out for good, if any. */
  function Takes(s: State, e: Event): Option<Secret> {
    match e
    case PopLogin(login) => if login in s.pending then Some(login) else None
    case ExchangeCode(_, code, _) => if code in s.codes then Some(code) else None
    case ExchangeRefresh(_, token, _, _) => if token in s.refresh then Some(token) else None
    case Revoke(token) => if token in s.refresh then Some(token) else None
    case _ => None
  }

  /** The API key that the step hands to the client that presented a code or refresh token. */
  function Hands(s: State, e: Event): Option<Secret> {
    match e
    case ExchangeCode(clientId, code, _) =>
      if code in s.codes && s.codes[code].clientId == clientId then Some(s.codes[code].apiKey) else None
    case ExchangeRefresh(clientId, token, _, _) =>
      if token in s.refresh && s.refresh[token].clientId == clientId then Some(s.refresh[token].apiKey) else None
    case _ => None
  }

  function Run(es: seq<Event>): State {
    if es == [] then START else Next(Run(es[..|es| - 1]), es[|es| - 1])
  }

  /** Randomly drawn secrets never repeat an earlier one. */
  ghost predicate FreshDraws(es: seq<Event>) {
    forall i :: 0 <= i < |es| && Draws(es[i]).Some? ==> Draws(es[i]).value !in Run(es[..i]).drawn
  }

  // ------------------------------------------------------ linear ownership

  datatype Holder = InFlight(login: Secret) | ByCode(code: Secret) | ByRefresh(token: Secret)

  /** The API key a holder owns. */
  function KeyOf(s: State, h: Holder): Option<Secret> {
    match h
    case InFlight(login) => if login in s.flights then s.flights[login].key else None
    case ByCode(code) => if code in s.codes then Some(s.codes[code].apiKey) else None
    case ByRefresh(token) => if token in s.refresh then Some(s.refresh[token].apiKey) else None
  }

  function ClientOf(s: State, h: Holder): ClientId
    requires KeyOf(s, h).Some?
  {
    match h
    case InFlight(login) => s.flights[login].login.clientId
    case ByCode(code) => s.codes[code].clientId
    case ByRefresh(token) => s.refresh[token].clientId
  }

  /** The client that began the login a key was minted for. */
  ghost predicate BegunBy(s: State, key: Secret, clientId: ClientId) {
    key in s.origin && s.origin[key] in s.begun && s.begun[s.origin[key]].clientId == clientId
  }

  ghost predicate Linear(s: State) {
    forall g, h :: KeyOf(s, g).Some? && KeyOf(s, g) == KeyOf(s, h) ==> g == h
  }

  /** Every secret in use was drawn, and what was taken out is in no dictionary. */
  ghost predicate Accounted(s: State) {
    && (forall x :: x in s.pending ==> x in s.drawn && x !in s.spent)
    && (forall x :: x in s.codes ==> x in s.drawn && x !in s.spent)
    && (forall x :: x in s.refresh ==> x in s.drawn && x !in s.spent)
    && (forall x :: x in s.codes ==> x !in s.pending && x !in s.refresh)
    && (forall x :: x in s.refresh ==> x !in s.pending)
    && (forall x :: x in s.flights ==> x in s.spent)
    && (forall x :: x in s.origin ==> x in s.drawn && s.origin[x] in s.begun)
    && (forall x :: x in s.begun ==> x in s.drawn)
    && s.spent <= s.drawn
  }

  /** A login in either form is as it was begun. */
  ghost predicate LoginsBegun(s: State) {
    && (forall l :: l in s.pending ==> l in s.begun && s.begun[l] == s.pending[l])
    && (forall l :: l in s.flights ==> l in s.begun && s.begun[l] == s.flights[l].login)
  }

  /** The code carries all that the login its key was minted for was begun with. */
  ghost predicate CarriesLogin(s: State, code: Secret)
    requires code in s.codes
  {
    var issued := s.codes[code];
    && issued.apiKey in s.origin && s.origin[issued.apiKey] in s.begun
    && var login := s.begun[s.origin[issued.apiKey]];
       && issued.clientId == login.clientId
       && issued.scopes == (if login.params.scopes.Some? then login.params.scopes.value else [])
       && issued.codeChallenge == login.params.codeChallenge && issued.redirectUri == login.params.redirectUri
       && issued.explicitUri == login.params.explicitUri && issued.resource == login.params.resource
  }

  ghost predicate KeysTraced(s: State) {
    && (forall l :: l in s.flights && s.flights[l].key.Some? ==>
          s.flights[l].key.value in s.origin && s.origin[s.flights[l].key.value] == l)
    && (forall code :: code in s.codes ==> CarriesLogin(s, code))
  }

  ghost predicate HoldersBegun(s: State) {
    forall h :: KeyOf(s, h).Some? ==> BegunBy(s, KeyOf(s, h).value, ClientOf(s, h))
  }

  ghost predicate Inv(s: State) {
    Accounted(s) && LoginsBegun(s) && KeysTraced(s) && HoldersBegun(s) && Linear(s)
  }

  /** The steps up to the authorization code. */
  predicate InLogin(e: Event) {
    !e.ExchangeCode? && !e.ExchangeRefresh? && !e.Revoke?
  }

  ghost predicate Enabled(s: State, e: Event) {
    Draws(e).Some? ==> Draws(e).value !in s.drawn
  }

  lemma NextKeepsInv(s: State, e: Event)
    requires Inv(s) && Enabled(s, e)
    ensures Inv(Next(s, e))
  {
    hide Next, KeyOf, ClientOf, BegunBy, Accounted, LoginsBegun, KeysTraced, Source, DrawsUnused;
    var s' := Next(s, e);
    EnabledDrawsUnused(s, e);
    NextKeepsAccounts(s, e);
    NextKeepsTraces(s, e);
    forall h | KeyOf(s', h).Some?
      ensures BegunBy(s', KeyOf(s', h).value, ClientOf(s', h))
    {
      HolderFrom(s, e, h);
    }
    forall g, h | KeyOf(s', g).Some? && KeyOf(s', g) == KeyOf(s', h)
      ensures g == h
    {
      HolderFrom(s, e, g);
      HolderFrom(s, e, h);
      SourceIsInjective(s, e, g, h);
    }
  }

  lemma NextKeepsAccounts(s: State, e: Event)
    requires Accounted(s) && LoginsBegun(s) && Enabled(s, e)
    ensures Accounted(Next(s, e)) && LoginsBegun(Next(s, e))
  {
    match e
    case ExchangeCode(clientId, code, newRefresh) =>
      if code in s.codes {
        TakingKeepsAccounts(s, code);
        IssuingKeepsAccounts(TakeCode(s, code), clientId, s.codes[code].apiKey, s.codes[code].scopes, newRefresh);
      }
    case ExchangeRefresh(clientId, token, scopes, newRefresh) =>
      if token in s.refresh {
        TakingKeepsAccounts(s, token);
        IssuingKeepsAccounts(TakeRefresh(s, token), clientId, s.refresh[token].apiKey, scopes, newRefresh);
      }
    case Revoke(token) => TakingKeepsAccounts(s, token);
    case MintKey(login, key) => MintKeepsAccounts(s, e);
    case IssueCode(login, code) => IssueCodeKeepsAccounts(s, e);
    case _ => LoginStepKeepsAccounts(s, e);
  }

  lemma NextKeepsTraces(s: State, e: Event)
    requires Accounted(s) && LoginsBegun(s) && KeysTraced(s) && Enabled(s, e)
    ensures KeysTraced(Next(s, e))
  {
    match e
    case Authorize(_, _, _) => LoginKeepsTraces(s, e);
    case MintKey(_, _) => MintKeepsTraces(s, e);
    case IssueCode(_, _) => IssueCodeKeepsTraces(s, e);
    case _ => OtherKeepsTraces(s, e);
  }

  /** A step that keeps what was begun and minted, and neither adds a code nor changes a callback that has its key. */
  lemma TracesStay(s: State, t: State)
    requires KeysTraced(s)
    requires forall x :: x in s.origin ==> x in t.origin && t.origin[x] == s.origin[x]
    requires forall l :: l in s.begun ==> l in t.begun && t.begun[l] == s.begun[l]
    requires forall code :: code in t.codes ==> code in s.codes && t.codes[code] == s.codes[code]
    requires forall l :: l in t.flights && t.flights[l].key.Some? ==> l in s.flights && t.flights[l] == s.flights[l]
    ensures KeysTraced(t)
  {
    forall code | code in t.codes ensures CarriesLogin(t, code) {
      assert CarriesLogin(s, code);
    }
  }

  lemma LoginKeepsTraces(s: State, e: Event)
    requires Accounted(s) && KeysTraced(s) && Enabled(s, e) && e.Authorize?
    ensures KeysTraced(Next(s, e))
  {
    hide KeysTraced;
    TracesStay(s, Next(s, e));
  }

  lemma MintKeepsTraces(s: State, e: Event)
    requires Accounted(s) && KeysTraced(s) && Enabled(s, e) && e.MintKey?
    ensures KeysTraced(Next(s, e))
  {
    hide KeysTraced;
    if Next(s, e) != s {
      var t := s.(drawn := s.drawn + {e.key}, origin := s.origin[e.key := e.login]);
      TracesStay(s, t);
      hide Accounted, Enabled;
      KeyTraced(t, e.login, e.key);
      assert Next(s, e) == t.(flights := t.flights[e.login := t.flights[e.login].(key := Some(e.key))]);
    }
  }

  lemma KeyTraced(s: State, login: Secret, key: Secret)
    requires KeysTraced(s) && login in s.flights && key in s.origin && s.origin[key] == login
    ensures KeysTraced(s.(flights := s.flights[login := s.flights[login].(key := Some(key))]))
  {
    var t := s.(flights := s.flights[login := s.flights[login].(key := Some(key))]);
    forall code | code in t.codes ensures CarriesLogin(t, code) {
      assert CarriesLogin(s, code);
    }
  }

  lemma IssueCodeKeepsTraces(s: State, e: Event)
    requires LoginsBegun(s) && KeysTraced(s) && e.IssueCode?
    ensures KeysTraced(Next(s, e))
  {
    assert forall code :: code in s.codes ==> CarriesLogin(s, code);
  }

  lemma OtherKeepsTraces(s: State, e: Event)
    requires KeysTraced(s) && !e.Authorize? && !e.MintKey? && !e.IssueCode?
    ensures KeysTraced(Next(s, e))
  {
    hide KeysTraced;
    if e.PopLogin? || e.AbandonLogin? {
      CallbackShape(s, e);
    } else {
      ExchangeShape(s, e);
    }
    hide Next;
    TracesStay(s, Next(s, e));
  }

  lemma CallbackShape(s: State, e: Event)
    requires e.PopLogin? || e.AbandonLogin?
    ensures var t := Next(s, e);
            && t.origin == s.origin && t.begun == s.begun && t.codes == s.codes
            && forall l :: l in t.flights && t.flights[l].key.Some? ==> l in s.flights && t.flights[l] == s.flights[l]
  {
  }

  lemma ExchangeShape(s: State, e: Event)
    requires e.ExchangeCode? || e.ExchangeRefresh? || e.Revoke?
    ensures var t := Next(s, e);
            && t.origin == s.origin && t.begun == s.begun && t.flights == s.flights
            && forall code :: code in t.codes ==> code in s.codes && t.codes[code] == s.codes[code]
  {
    var taken := if e.ExchangeCode? && e.code in s.codes then {e.code} else {};
    assert Next(s, e).codes == s.codes - taken;
  }

  lemma TakingKeepsAccounts(s: State, x: Secret)
    requires Accounted(s) && LoginsBegun(s)
    ensures x in s.codes ==> Accounted(TakeCode(s, x)) && LoginsBegun(TakeCode(s, x))
    ensures x in s.refresh ==> Accounted(TakeRefresh(s, x)) && LoginsBegun(TakeRefresh(s, x))
  {
  }

  lemma IssuingKeepsAccounts(s: State, clientId: ClientId, apiKey: Secret, scopes: seq<string>, newRefresh: Secret)
    requires Accounted(s) && LoginsBegun(s) && newRefresh !in s.drawn
    ensures Accounted(IssueTokens(s, clientId, apiKey, scopes, newRefresh))
    ensures LoginsBegun(IssueTokens(s, clientId, apiKey, scopes, newRefresh))
  {
  }

  lemma MintKeepsAccounts(s: State, e: Event)
    requires Accounted(s) && LoginsBegun(s) && Enabled(s, e) && e.MintKey?
    ensures Accounted(Next(s, e)) && LoginsBegun(Next(s, e))
  {
  }

  lemma IssueCodeKeepsAccounts(s: State, e: Event)
    requires Accounted(s) && LoginsBegun(s) && Enabled(s, e) && e.IssueCode?
    ensures Accounted(Next(s, e)) && LoginsBegun(Next(s, e))
  {
  }

  lemma LoginStepKeepsAccounts(s: State, e: Event)
    requires Accounted(s) && LoginsBegun(s) && Enabled(s, e)
    requires e.Authorize? || e.PopLogin? || e.AbandonLogin?
    ensures Accounted(Next(s, e)) && LoginsBegun(Next(s, e))
  {
  }

  /** Where a holder of the next state has its key from. */
  function Source(e: Event, h: Holder): Holder {
    match (e, h)
    case (IssueCode(login, code), ByCode(c)) => if c == code then InFlight(login) else h
    case (ExchangeCode(_, code, newRefresh), ByRefresh(t)) => if t == newRefresh then ByCode(code) else h
    case (ExchangeRefresh(_, token, _, newRefresh), ByRefresh(t)) => if t == newRefresh then ByRefresh(token) else h
    case _ => h
  }

  /** The holder of a key that the step mints. */
  predicate Mints(s: State, e: Event, h: Holder) {
    e.MintKey? && h == InFlight(e.login) && KeyOf(s, h).None?
  }

  ghost predicate DrawsUnused(s: State, e: Event) {
    Draws(e).Some? ==> Draws(e).value !in s.codes && Draws(e).value !in s.refresh
  }

  lemma EnabledDrawsUnused(s: State, e: Event)
    requires Accounted(s) && Enabled(s, e)
    ensures DrawsUnused(s, e)
  {
  }

  lemma SourceIsInjective(s: State, e: Event, g: Holder, h: Holder)
    requires DrawsUnused(s, e) && Source(e, g) == Source(e, h)
    requires KeyOf(Next(s, e), g).Some? && KeyOf(Next(s, e), h).Some?
    ensures g == h
  {
  }

  /** A key is held after a step by a holder that had it, by the one it moved to, or as newly minted. */
  lemma HolderFrom(s: State, e: Event, h: Holder)
    requires Accounted(s) && LoginsBegun(s) && HoldersBegun(s) && Enabled(s, e)
    requires KeyOf(Next(s, e), h).Some?
    ensures BegunBy(Next(s, e), KeyOf(Next(s, e), h).value, ClientOf(Next(s, e), h))
    ensures Mints(s, e, h) ==> KeyOf(Next(s, e), h) == Some(e.key) && e.key !in s.drawn
    ensures !Mints(s, e, h) ==>
            KeyOf(s, Source(e, h)) == KeyOf(Next(s, e), h) && KeyOf(s, Source(e, h)).value in s.drawn
  {
    hide Next, KeyOf, ClientOf, BegunBy, Source, DrawsUnused;
    if Mints(s, e, h) {
      MintedKeyBegun(s, e);
    } else {
      EnabledDrawsUnused(s, e);
      KeyMoves(s, e, h);
      var key, clientId := KeyOf(s, Source(e, h)).value, ClientOf(s, Source(e, h));
      assert BegunBy(s, key, clientId);
      BegunStays(s, e, key, clientId);
    }
  }

  lemma MintedKeyBegun(s: State, e: Event)
    requires LoginsBegun(s) && e.MintKey? && KeyOf(s, InFlight(e.login)).None?
             && KeyOf(Next(s, e), InFlight(e.login)).Some?
    ensures KeyOf(Next(s, e), InFlight(e.login)) == Some(e.key)
    ensures BegunBy(Next(s, e), e.key, ClientOf(Next(s, e), InFlight(e.login)))
  {
  }

  lemma KeyMoves(s: State, e: Event, h: Holder)
    requires DrawsUnused(s, e) && KeyOf(Next(s, e), h).Some? && !Mints(s, e, h)
    ensures KeyOf(s, Source(e, h)) == KeyOf(Next(s, e), h)
    ensures ClientOf(s, Source(e, h)) == ClientOf(Next(s, e), h)
  {
    hide Next, KeyOf, ClientOf, Source;
    if InLogin(e) {
      LoginStepMoves(s, e, h);
    } else if e.ExchangeCode? {
      ExchangeCodeMoves(s, e, h);
    } else if e.ExchangeRefresh? {
      ExchangeRefreshMoves(s, e, h);
    } else {
      RevokeMoves(s, e, h);
    }
  }

  lemma LoginStepMoves(s: State, e: Event, h: Holder)
    requires InLogin(e) && DrawsUnused(s, e)
    requires KeyOf(Next(s, e), h).Some? && !Mints(s, e, h)
    ensures KeyOf(s, Source(e, h)) == KeyOf(Next(s, e), h)
    ensures ClientOf(s, Source(e, h)) == ClientOf(Next(s, e), h)
  {
  }

  lemma ExchangeCodeMoves(s: State, e: Event, h: Holder)
    requires e.ExchangeCode? && DrawsUnused(s, e)
    requires KeyOf(Next(s, e), h).Some?
    ensures KeyOf(s, Source(e, h)) == KeyOf(Next(s, e), h)
    ensures ClientOf(s, Source(e, h)) == ClientOf(Next(s, e), h)
  {
  }

  lemma ExchangeRefreshMoves(s: State, e: Event, h: Holder)
    requires e.ExchangeRefresh? && DrawsUnused(s, e)
    requires KeyOf(Next(s, e), h).Some?
    ensures KeyOf(s, Source(e, h)) == KeyOf(Next(s, e), h)
    ensures ClientOf(s, Source(e, h)) == ClientOf(Next(s, e), h)
  {
  }

  lemma RevokeMoves(s: State, e: Event, h: Holder)
    requires e.Revoke? && KeyOf(Next(s, e), h).Some?
    ensures KeyOf(s, Source(e, h)) == KeyOf(Next(s, e), h)
    ensures ClientOf(s, Source(e, h)) == ClientOf(Next(s, e), h)
  {
  }

  lemma BegunStays(s: State, e: Event, key: Secret, clientId: ClientId)
    requires Accounted(s) && Enabled(s, e) && BegunBy(s, key, clientId)
    ensures BegunBy(Next(s, e), key, clientId) && key in s.drawn
  {
  }

  lemma {:induction false} RunKeepsInv(es: seq<Event>)
    requires FreshDraws(es)
    ensures Inv(Run(es))
  {
    hide Next, Inv;
    if es == [] {
      assert Inv(START) by {
        StartInv();
      }
    } else {
      var front := es[..|es| - 1];
      FreshPrefix(es, |front|);
      RunKeepsInv(front);
      NextKeepsInv(Run(front), es[|es| - 1]);
    }
  }

  lemma StartInv()
    ensures Inv(START)
  {
  }

  lemma FreshPrefix(es: seq<Event>, n: nat)
    requires FreshDraws(es) && n <= |es|
    ensures FreshDraws(es[..n])
  {
    forall i | 0 <= i < n && Draws(es[..n][i]).Some?
      ensures Draws(es[..n][i]).value !in Run(es[..n][..i]).drawn
    {
      assert es[..n][..i] == es[..i];
    }
  }

  lemma {:induction false} SpentStays(es: seq<Event>, n: nat, x: Secret)
    requires n <= |es| && x in Run(es[..n]).spent
    ensures x in Run(es).spent
  {
    hide Next;
    if n < |es| {
      var front := es[..|es| - 1];
      assert front[..n] == es[..n];
      SpentStays(front, n, x);
      SpentGrows(Run(front), es[|es| - 1]);
    } else {
      assert es[..n] == es;
    }
  }

  lemma SpentGrows(s: State, e: Event)
    ensures s.spent <= Next(s, e).spent
    ensures Takes(s, e).Some? ==> Takes(s, e).value in Next(s, e).spent
  {
  }

  lemma TakesUnspent(s: State, e: Event)
    requires Accounted(s) && Takes(s, e).Some?
    ensures Takes(s, e).value !in s.spent
  {
  }

  /** No login state, code or refresh token is taken twice, whatever the interleaving. */
  lemma TakenAtMostOnce(es: seq<Event>, i: nat, j: nat)
    requires FreshDraws(es) && i < j < |es|
    requires Takes(Run(es[..i]), es[i]).Some?
    ensures Takes(Run(es[..j]), es[j]) != Takes(Run(es[..i]), es[i])
  {
    hide Next, Accounted, Linear, HoldersBegun, LoginsBegun, Takes;
    var x := Takes(Run(es[..i]), es[i]).value;
    FreshPrefix(es, j);
    RunKeepsInv(es[..j]);
    SpentGrows(Run(es[..i]), es[i]);
    assert es[..i + 1][..i] == es[..i];
    assert es[..j][..i + 1] == es[..i + 1];
    SpentStays(es[..j], i + 1, x);
    if Takes(Run(es[..j]), es[j]).Some? {
      TakesUnspent(Run(es[..j]), es[j]);
    }
  }

  /**
   * Each minted key has at most one holder, which carries the client that began the login, and
   * a step hands a key only to that client. A code that is still live carries the client, address,
   * challenge, resource and scopes with which the login of its key was begun.
   */
  lemma KeysAreLinear(es: seq<Event>, e: Event)
    requires FreshDraws(es)
    ensures Linear(Run(es))
    ensures forall h :: KeyOf(Run(es), h).Some? ==> BegunBy(Run(es), KeyOf(Run(es), h).value, ClientOf(Run(es), h))
    ensures Hands(Run(es), e).Some? ==>
              (e.ExchangeCode? || e.ExchangeRefresh?) && BegunBy(Run(es), Hands(Run(es), e).value, e.clientId)
    ensures forall code :: code in Run(es).codes ==> CarriesLogin(Run(es), code)
  {
    var s := Run(es);
    RunKeepsInv(es);
    if e.ExchangeCode? && Hands(s, e).Some? {
      assert KeyOf(s, ByCode(e.code)) == Hands(s, e);
    }
    if e.ExchangeRefresh? && Hands(s, e).Some? {
      assert KeyOf(s, ByRefresh(e.token)) == Hands(s, e);
    }
  }

  /** A successful exchange moves the key: the token presented is dead and the new one holds the key. */
  lemma ExchangeMovesKey(es: seq<Event>, e: Event)
    requires FreshDraws(es + [e]) && Hands(Run(es), e).Some?
    ensures KeyOf(Run(es + [e]), ByRefresh(Draws(e).value)) == Hands(Run(es), e)
    ensures forall h :: KeyOf(Run(es + [e]), h) == Hands(Run(es), e) ==> h == ByRefresh(Draws(e).value)
    ensures forall c, t :: Hands(Run(es + [e]), ExchangeCode(c, Takes(Run(es), e).value, t)) == None
    ensures forall c, scopes, t :: Hands(Run(es + [e]), ExchangeRefresh(c, Takes(Run(es), e).value, scopes, t)) == None
  {
    assert (es + [e])[..|es|] == es;
    RunKeepsInv(es + [e]);
  }

  // ------------------------------------------------------ the provider

  datatype Response =
    | ErrorResponse
    | LoginRedirect(login: Secret)
    | ErrorRedirect(uri: string, state: Option<string>)
    | CodeRedirect(uri: string, code: Secret, state: Option<string>)
  datatype TokenResponse = InvalidGrant | Tokens(accessToken: Secret, refreshToken: Secret, scopes: seq<string>)

  class Provider {
    var pending: map<Secret, Login>
    var codes: map<Secret, IssuedCode>
    var refresh: map<Secret, Issued>
    ghost var rest: State  // the callbacks in progress and the history

    ghost function View(): State
      reads this
    {
      rest.(pending := pending, codes := codes, refresh := refresh)
    }

    constructor ()
      ensures View() == START
    {
      pending, codes, refresh, rest := map[], map[], map[], START;
    }

    /** `login` is the random token the step draws. */
    method AuthorizeClient(configured: bool, clientId: ClientId, params: Params, login: Secret)
      returns (response: Response)
      modifies this
      ensures View() == if configured then Next(old(View()), Authorize(clientId, params, login)) else old(View())
      ensures configured ==> login in pending && pending[login] == Login(clientId, params)
      ensures response == if configured then LoginRedirect(login) else ErrorResponse
    {
      if !configured {
        return ErrorResponse;
      }
      pending := pending[login := Login(clientId, params)];
      rest := Next(rest, Authorize(clientId, params, login));
      return LoginRedirect(login);
    }

    /** The part of `handle_callback` before its first await. */
    method BeginCallback(state: Option<Secret>) returns (login: Option<Login>)
      modifies this
      ensures state.None? ==> View() == old(View()) && login.None?
      ensures state.Some? ==> View() == Next(old(View()), PopLogin(state.value))
      ensures state.Some? ==> login == if state.value in old(pending) then Some(old(pending)[state.value]) else None
    {
      login := None;
      if state.Some? && state.value in pending {
        rest := Next(View(), PopLogin(state.value));
        login := Some(pending[state.value]);
        pending := pending - {state.value};
      }
    }

    /**
     * The part after it: `failed` covers an error parameter, a missing code, a failed exchange with
     * the identity service and a refused tenant, all of which redirect with an error. Either way the
     * client gets its own state back, at the address it gave.
     */
    method FinishCallback(state: Secret, login: Login, failed: bool, key: Secret, code: Secret)
      returns (response: Response)
      requires state in View().flights && View().flights[state] == Flight(login, None)
      modifies this
      ensures View() == if failed then Next(old(View()), AbandonLogin(state))
                        else Next(Next(old(View()), MintKey(state, key)), IssueCode(state, code))
      ensures response == if failed then ErrorRedirect(login.params.redirectUri, login.params.state)
                          else CodeRedirect(login.params.redirectUri, code, login.params.state)
      ensures !failed ==>
                && codes == old(codes)[code := codes[code]] && code in codes
                && codes[code].clientId == login.clientId && codes[code].apiKey == key
                && codes[code].scopes == (if login.params.scopes.Some? then login.params.scopes.value else [])
                && codes[code].codeChallenge == login.params.codeChallenge
                && codes[code].redirectUri == login.params.redirectUri
                && codes[code].explicitUri == login.params.explicitUri
                && codes[code].resource == login.params.resource
    {
      if failed {
        rest := Next(View(), AbandonLogin(state));
        return ErrorRedirect(login.params.redirectUri, login.params.state);
      }
      rest := Next(Next(View(), MintKey(state, key)), IssueCode(state, code));
      codes := codes[code := CodeFor(login, key)];
      return CodeRedirect(login.params.redirectUri, code, login.params.state);
    }

    method ExchangeAuthorizationCode(clientId: ClientId, code: Secret, newRefresh: Secret)
      returns (response: TokenResponse)
      modifies this
      ensures View() == Next(old(View()), ExchangeCode(clientId, code, newRefresh))
      ensures response.InvalidGrant? <==> Hands(old(View()), ExchangeCode(clientId, code, newRefresh)).None?
      ensures response.Tokens? ==>
                && Some(response.accessToken) == Hands(old(View()), ExchangeCode(clientId, code, newRefresh))
                && response.refreshToken == newRefresh
                && response.scopes == old(codes)[code].scopes && codes == old(codes) - {code}
                && refresh == old(refresh)[newRefresh := Issued(clientId, response.scopes, response.accessToken)]
    {
      if code !in codes {
        return InvalidGrant;
      }
      var issued := codes[code];
      rest := Next(View(), ExchangeCode(clientId, code, newRefresh));
      codes := codes - {code};
      if issued.clientId != clientId {
        return InvalidGrant;
      }
      refresh := refresh[newRefresh := Issued(clientId, issued.scopes, issued.apiKey)];
      return Tokens(issued.apiKey, newRefresh, issued.scopes);
    }

    method ExchangeRefreshToken(clientId: ClientId, token: Secret, scopes: seq<string>, newRefresh: Secret)
      returns (response: TokenResponse)
      modifies this
      ensures View() == Next(old(View()), ExchangeRefresh(clientId, token, scopes, newRefresh))
      ensures response.InvalidGrant? <==> Hands(old(View()), ExchangeRefresh(clientId, token, scopes, newRefresh)).None?
      ensures response.Tokens? ==>
                && Some(response.accessToken)
                   == Hands(old(View()), ExchangeRefresh(clientId, token, scopes, newRefresh))
                && response.refreshToken == newRefresh
                && response.scopes == scopes
                && refresh == (old(refresh) - {token})[newRefresh := Issued(clientId, scopes, response.accessToken)]
    {
      if token !in refresh {
        return InvalidGrant;
      }
      var issued := refresh[token];
      rest := Next(View(), ExchangeRefresh(clientId, token, scopes, newRefresh));
      refresh := refresh - {token};
      if issued.clientId != clientId {
        return InvalidGrant;
      }
      refresh := refresh[newRefresh := Issued(clientId, scopes, issued.apiKey)];
      return Tokens(issued.apiKey, newRefresh, scopes);
    }

    /** Only refresh tokens can be revoked; an access token is left alone. */
    method RevokeToken(isRefresh: bool, token: Secret)
      modifies this
      ensures View() == if isRefresh then Next(old(View()), Revoke(token)) else old(View())
    {
      if isRefresh && token in refresh {
        rest := Next(View(), Revoke(token));
        refresh := refresh - {token};
      }
    }
  }
}
