/**
Endpoint accounts: sign-in, first-password change, administrator reset and enrollment grants as racing
requests.

A transaction is one step.  Sign-in and password change read in one transaction and write in a second
one, so any other request may run in between, and a request may vanish.  One network is modelled, with
administrators who reset passwords, disable accounts and suspend the network.  Session tokens and grant
identifiers are never drawn twice, and a password verifies exactly against its own hash.
*/
module EndpointAccounts {
  import opened Results

  datatype Account = Account(password: nat, version: nat, initialExpiry: Option<nat>, setupAt: Option<nat>,
      active: bool)

  /** `secret` is history: the password that was presented or set when the session was issued. */
  datatype Session = Session(account: string, version: nat, expires: nat, secret: nat)

  datatype Grant = Grant(account: string, version: nat, expires: nat, used: bool, revoked: bool)

  datatype Reset = Reset(account: string, resolved: bool)

  /** A sign-in whose password was verified against the row it read. */
  datatype Login = Login(account: string, version: nat, presented: nat)

  /** A password change whose session was checked at `now`. */
  datatype Change = Change(token: string, password: nat, now: nat)

  /** `issued` and `completions` are history: the tokens drawn so far, and first-password changes by account. */
  datatype State = State(
    networkActive: bool,
    accounts: map<string, Account>,
    sessions: map<string, Session>,
    grants: map<string, Grant>,
    resets: map<string, Reset>,
    logins: map<nat, Login>,
    changes: map<nat, Change>,
    issued: set<string>,
    completions: map<string, nat>)

  const INITIAL := State(true, map[], map[], map[], map[], map[], map[], {}, map[])

  const INITIAL_LIFETIME: nat := 7 * 86400
  const SESSION_LIFETIME: nat := 15 * 60
  const GRANT_LIFETIME: nat := 5 * 60

  datatype Step =
    | Creates(account: string, password: nat, now: nat)
    | LoginReads(id: nat, account: string, presented: nat)
    | LoginIssues(id: nat, token: string, now: nat)
    | LogsOut(token: string)
    | ChangeReads(id: nat, token: string, password: nat, now: nat)
    | ChangeWrites(id: nat, newToken: string)
    | RequestsReset(request: string, account: string)
    | Resets(request: string, password: nat, now: nat)
    | TakesGrant(token: string, grant: string, now: nat)
    | UsesGrant(grant: string, now: nat)
    | RevokesGrant(grant: string)
    | SetsAccount(account: string, active: bool)
    | SetsNetwork(active: bool)
    | Abandons(id: nat)

  // ---------------------------------------------------------------- statements shared by transactions

  function WithoutSessions(sessions: map<string, Session>, a: string): map<string, Session> {
    map t | t in sessions && sessions[t].account != a :: sessions[t]
  }

  function WithoutExpired(sessions: map<string, Session>, now: nat): map<string, Session> {
    map t | t in sessions && sessions[t].expires > now :: sessions[t]
  }

  /** `UPDATE enrollment_tokens SET revoked_at ... WHERE used_at IS NULL` for the grants of an account. */
  function RevokeUnused(grants: map<string, Grant>, a: string): map<string, Grant> {
    map g | g in grants :: if grants[g].account == a && !grants[g].used then grants[g].(revoked := true) else grants[g]
  }

  /** `_issue_session` */
  function IssueSession(s: State, a: string, token: string, now: nat): State
    requires a in s.accounts
  {
    var kept := WithoutSessions(WithoutExpired(s.sessions, now), a);
    s.(sessions := kept[token := Session(a, s.accounts[a].version, now + SESSION_LIFETIME, s.accounts[a].password)],
       issued := s.issued + {token})
  }

  /** The account row that `_replace_password` writes. */
  function Replaced(row: Account, password: nat, now: nat, complete: bool): Account {
    var completed := if row.setupAt.Some? then row.setupAt else if complete then Some(now) else None;
    var expires := if completed.Some? then None else Some(now + INITIAL_LIFETIME);
    Account(password, row.version + 1, expires, completed, row.active)
  }

  /** `_replace_password` */
  function ReplacePassword(s: State, a: string, password: nat, now: nat, complete: bool): State
    requires a in s.accounts
  {
    s.(accounts := s.accounts[a := Replaced(s.accounts[a], password, now, complete)],
       sessions := WithoutSessions(s.sessions, a),
       grants := RevokeUnused(s.grants, a))
  }

  /** `_session` finds a row. */
  predicate HasSession(s: State, token: string, now: nat) {
    && token in s.sessions && s.sessions[token].expires > now
    && s.sessions[token].account in s.accounts
    && s.sessions[token].version == s.accounts[s.sessions[token].account].version
    && s.accounts[s.sessions[token].account].active && s.networkActive
  }

  // ---------------------------------------------------------------- transactions

  function Create(s: State, a: string, password: nat, now: nat): State {
    if a in s.accounts || !s.networkActive then s
    else s.(accounts := s.accounts[a := Account(password, 1, Some(now + INITIAL_LIFETIME), None, true)])
  }

  function LoginRead(s: State, id: nat, a: string, presented: nat): State {
    if id in s.logins || a !in s.accounts || !s.accounts[a].active || !s.networkActive ||
      s.accounts[a].password != presented then s
    else s.(logins := s.logins[id := Login(a, s.accounts[a].version, presented)])
  }

  /** The second transaction of `login` accepts. */
  predicate LoginStands(s: State, l: Login, now: nat) {
    && l.account in s.accounts && s.accounts[l.account].active && s.networkActive
    && s.accounts[l.account].version == l.version
    && (s.accounts[l.account].initialExpiry.None? || s.accounts[l.account].initialExpiry.value > now)
  }

  function LoginIssue(s: State, id: nat, token: string, now: nat): State {
    if id !in s.logins || token in s.issued then s
    else
      var t := s.(logins := s.logins - {id});
      if LoginStands(s, s.logins[id], now) then IssueSession(t, s.logins[id].account, token, now) else t
  }

  function ChangeRead(s: State, id: nat, token: string, password: nat, now: nat): State {
    if id in s.changes || !HasSession(s, token, now) then s
    else
      var row := s.accounts[s.sessions[token].account];
      if row.setupAt.Some? || row.password == password then s
      else s.(changes := s.changes[id := Change(token, password, now)])
  }

  function Count(completions: map<string, nat>, a: string): nat { if a in completions then completions[a] else 0 }

  /** The first password of an account is replaced. */
  function CompleteSetup(s: State, a: string, password: nat, now: nat): State
    requires a in s.accounts
  {
    ReplacePassword(s, a, password, now, true).(completions := s.completions[a := Count(s.completions, a) + 1])
  }

  /** The second transaction of `change_password` looks at the session again, but not at the setup. */
  function ChangeWrite(s: State, id: nat, newToken: string): State {
    if id !in s.changes || newToken in s.issued then s
    else
      var c := s.changes[id];
      var t := s.(changes := s.changes - {id});
      if !HasSession(s, c.token, c.now) then t
      else
        var a := s.sessions[c.token].account;
        IssueSession(CompleteSetup(t, a, c.password, c.now), a, newToken, c.now)
  }

  predicate OpenReset(s: State, request: string, a: string) {
    request in s.resets && s.resets[request] == Reset(a, false)
  }

  function RequestReset(s: State, request: string, a: string): State {
    if request in s.resets || a !in s.accounts || !s.accounts[a].active || !s.networkActive ||
      exists r :: r in s.resets && OpenReset(s, r, a) then s
    else s.(resets := s.resets[request := Reset(a, false)])
  }

  function ResetPassword(s: State, request: string, password: nat, now: nat): State {
    if request !in s.resets || s.resets[request].resolved || !s.networkActive then s
    else
      var a := s.resets[request].account;
      if a !in s.accounts || !s.accounts[a].active then s
      else ReplacePassword(s, a, password, now, false).(resets := s.resets[request := Reset(a, true)])
  }

  function TakeGrant(s: State, token: string, g: string, now: nat): State {
    if g in s.grants || !HasSession(s, token, now) then s
    else
      var a := s.sessions[token].account;
      if s.accounts[a].setupAt.None? then s
      else
        var grant := Grant(a, s.accounts[a].version, now + GRANT_LIFETIME, false, false);
        s.(grants := RevokeUnused(s.grants, a)[g := grant])
  }

  /** `_require_account_grant` raises nothing. */
  predicate Authority(s: State, g: Grant) {
    g.account in s.accounts && s.accounts[g.account].active && s.accounts[g.account].setupAt.Some? &&
      s.accounts[g.account].version == g.version
  }

  predicate Usable(g: Grant) { !g.used && !g.revoked }

  function UseGrant(s: State, g: string, now: nat): State {
    if g in s.grants && s.networkActive && Usable(s.grants[g]) && s.grants[g].expires > now && Authority(s, s.grants[g])
    then s.(grants := s.grants[g := s.grants[g].(used := true)]) else s
  }

  function RevokeGrant(s: State, g: string): State {
    if g in s.grants && Usable(s.grants[g]) then s.(grants := s.grants[g := s.grants[g].(revoked := true)]) else s
  }

  /** `update_account` with another status: sessions go, all grants are revoked, the version moves on. */
  function SetAccount(s: State, a: string, active: bool): State {
    if a !in s.accounts || s.accounts[a].active == active then s
    else s.(
      accounts := s.accounts[a := s.accounts[a].(version := s.accounts[a].version + 1, active := active)],
      sessions := WithoutSessions(s.sessions, a),
      grants := map g | g in s.grants :: if s.grants[g].account == a then s.grants[g].(revoked := true)
        else s.grants[g],
      resets := map r | r in s.resets ::
        if s.resets[r].account == a && !active then s.resets[r].(resolved := true) else s.resets[r])
  }

  /** Suspending the network ends its sessions and grants. */
  function SetNetwork(s: State, active: bool): State {
    if active || !s.networkActive then s.(networkActive := active)
    else s.(networkActive := false, sessions := map[], grants := map g | g in s.grants :: s.grants[g].(revoked := true))
  }

  function Apply(s: State, step: Step): State {
    match step
    case Creates(a, password, now) => Create(s, a, password, now)
    case LoginReads(id, a, presented) => LoginRead(s, id, a, presented)
    case LoginIssues(id, token, now) => LoginIssue(s, id, token, now)
    case LogsOut(token) => s.(sessions := s.sessions - {token})
    case ChangeReads(id, token, password, now) => ChangeRead(s, id, token, password, now)
    case ChangeWrites(id, newToken) => ChangeWrite(s, id, newToken)
    case RequestsReset(request, a) => RequestReset(s, request, a)
    case Resets(request, password, now) => ResetPassword(s, request, password, now)
    case TakesGrant(token, g, now) => TakeGrant(s, token, g, now)
    case UsesGrant(g, now) => UseGrant(s, g, now)
    case RevokesGrant(g) => RevokeGrant(s, g)
    case SetsAccount(a, active) => SetAccount(s, a, active)
    case SetsNetwork(active) => SetNetwork(s, active)
    case Abandons(id) => s.(logins := s.logins - {id}, changes := s.changes - {id})
  }

  function Run(steps: seq<Step>): State {
    if steps == [] then INITIAL else Apply(Run(steps[..|steps| - 1]), steps[|steps| - 1])
  }

  // ---------------------------------------------------------------- the invariant

  /** A session belongs to an active account of the active network, at its current password and version. */
  predicate SessionOk(s: State, t: string)
    requires t in s.sessions
  {
    var x := s.sessions[t];
    && s.networkActive && x.account in s.accounts && s.accounts[x.account].active && t in s.issued
    && x.version == s.accounts[x.account].version && x.secret == s.accounts[x.account].password
  }

  predicate AccountOk(s: State, a: string)
    requires a in s.accounts
  {
    && (s.accounts[a].initialExpiry.None? <==> s.accounts[a].setupAt.Some?)
    && Count(s.completions, a) == (if s.accounts[a].setupAt.Some? then 1 else 0)
  }

  /** A usable grant has its account's full authority. */
  predicate GrantOk(s: State, g: Grant) { Usable(g) ==> s.networkActive && Authority(s, g) }

  predicate LoginOk(s: State, l: Login) {
    && l.account in s.accounts && l.version <= s.accounts[l.account].version
    && (l.version == s.accounts[l.account].version ==> l.presented == s.accounts[l.account].password)
  }

  /** As long as the session of a change lives, its account is not set up. */
  predicate ChangeOk(s: State, c: Change) {
    c.token in s.issued && (c.token in s.sessions ==> NotSetUp(s, s.sessions[c.token].account))
  }

  predicate NotSetUp(s: State, a: string) { a in s.accounts && s.accounts[a].setupAt.None? }

  ghost predicate OneSession(sessions: map<string, Session>) {
    forall t, u :: t in sessions && u in sessions && sessions[t].account == sessions[u].account ==> t == u
  }

  predicate UsableBySame(g: Grant, h: Grant) { Usable(g) && Usable(h) && g.account == h.account }

  predicate OpenForSame(q: Reset, r: Reset) { !q.resolved && !r.resolved && q.account == r.account }

  ghost predicate OneGrant(grants: map<string, Grant>) {
    forall g, h :: g in grants && h in grants && UsableBySame(grants[g], grants[h]) ==> g == h
  }

  ghost predicate OneReset(resets: map<string, Reset>) {
    forall q, r :: q in resets && r in resets && OpenForSame(resets[q], resets[r]) ==> q == r
  }

  ghost predicate Inv(s: State) {
    && OneSession(s.sessions) && OneGrant(s.grants) && OneReset(s.resets)
    && (forall a :: a in s.accounts ==> AccountOk(s, a))
    && (forall a :: a in s.completions ==> a in s.accounts)
    && (forall t :: t in s.sessions ==> SessionOk(s, t))
    && (forall g :: g in s.grants ==> GrantOk(s, s.grants[g]))
    && (forall l :: l in s.logins ==> LoginOk(s, s.logins[l]))
    && (forall c :: c in s.changes ==> ChangeOk(s, s.changes[c]))
  }

  // ---------------------------------------------------------------- each transaction keeps the invariant

  lemma {:induction false} IssueKeeps(s: State, a: string, token: string, now: nat)
    requires Inv(s) && a in s.accounts && s.accounts[a].active && s.networkActive && token !in s.issued
    ensures Inv(IssueSession(s, a, token, now))
  {
    hide OneGrant, OneReset, AccountOk, GrantOk, LoginOk, ChangeOk, SessionOk;
    var t := IssueSession(s, a, token, now);
    IssuedSessions(s, a, token, now);
    SameRows(s, t);
    forall c | c in s.changes ensures ChangeOk(t, s.changes[c]) { IssueChange(s, a, token, now, s.changes[c]); }
  }

  lemma {:induction false} IssueChange(s: State, a: string, token: string, now: nat, c: Change)
    requires a in s.accounts && token !in s.issued && ChangeOk(s, c)
    ensures ChangeOk(IssueSession(s, a, token, now), c)
  {
  }

  lemma {:induction false} IssuedSessions(s: State, a: string, token: string, now: nat)
    requires a in s.accounts && s.accounts[a].active && s.networkActive && token !in s.issued
    requires OneSession(s.sessions) && forall t :: t in s.sessions ==> SessionOk(s, t)
    ensures var t := IssueSession(s, a, token, now);
      OneSession(t.sessions) && forall x :: x in t.sessions ==> SessionOk(t, x)
  {
    var t := IssueSession(s, a, token, now);
    forall x | x in t.sessions ensures SessionOk(t, x) {
      if x != token { assert SessionOk(s, x); }
    }
  }

  /** What depends on accounts, grants and history only. */
  lemma {:induction false} SameRows(s: State, t: State)
    requires t.accounts == s.accounts && t.completions == s.completions && t.networkActive == s.networkActive
    ensures forall a :: a in s.accounts && AccountOk(s, a) ==> AccountOk(t, a)
    ensures forall g :: GrantOk(s, g) ==> GrantOk(t, g)
    ensures forall l :: LoginOk(s, l) ==> LoginOk(t, l)
  {
  }

  /** Sessions only go away, and nothing else changes. */
  lemma {:induction false} FewerSessions(s: State, t: State)
    requires Inv(s) && t == s.(sessions := t.sessions) && t.sessions.Keys <= s.sessions.Keys
    requires forall x :: x in t.sessions ==> t.sessions[x] == s.sessions[x]
    ensures Inv(t)
  {
    hide OneGrant, OneReset, AccountOk, GrantOk, LoginOk;
    SameRows(s, t);
    forall x | x in t.sessions ensures SessionOk(t, x) { assert SessionOk(s, x); }
    forall c | c in s.changes ensures ChangeOk(t, s.changes[c]) { assert ChangeOk(s, s.changes[c]); }
  }

  /** The account row changes together with its version; its sessions go and its unused grants are revoked. */
  ghost predicate Renews(s: State, t: State, a: string) {
    && a in s.accounts && a in t.accounts && t.accounts == s.accounts[a := t.accounts[a]]
    && t.accounts[a].version == s.accounts[a].version + 1
    && t.sessions == WithoutSessions(s.sessions, a)
    && t.grants.Keys == s.grants.Keys
    && (forall g :: g in s.grants && s.grants[g].account != a ==> t.grants[g] == s.grants[g])
    && (forall g :: g in s.grants && s.grants[g].account == a ==> t.grants[g].account == a && !Usable(t.grants[g]))
    && t.logins == s.logins && t.changes == s.changes && t.issued == s.issued && t.networkActive == s.networkActive
    && (forall x :: x != a ==> Count(t.completions, x) == Count(s.completions, x))
    && t.completions.Keys <= s.completions.Keys + {a}
  }

  lemma {:induction false} RenewKeeps(s: State, t: State, a: string)
    requires Inv(s) && Renews(s, t, a) && AccountOk(t, a) && OneReset(t.resets)
    ensures Inv(t)
  {
    RenewKeepsRows(s, t, a);
    RenewKeepsGrants(s, t, a);
    RenewKeepsRequests(s, t, a);
  }

  lemma {:induction false} RenewKeepsRows(s: State, t: State, a: string)
    requires Inv(s) && Renews(s, t, a) && AccountOk(t, a)
    ensures OneSession(t.sessions) && (forall x :: x in t.accounts ==> AccountOk(t, x)) &&
      (forall x :: x in t.completions ==> x in t.accounts)
    ensures forall x :: x in t.sessions ==> SessionOk(t, x)
  {
    hide OneGrant, OneReset, GrantOk, LoginOk, ChangeOk, Usable;
    forall x | x in t.accounts ensures AccountOk(t, x) {
      if x != a { assert AccountOk(s, x); }
    }
    forall x | x in t.sessions ensures SessionOk(t, x) { assert SessionOk(s, x); }
  }

  lemma {:induction false} RenewKeepsGrants(s: State, t: State, a: string)
    requires Inv(s) && Renews(s, t, a)
    ensures OneGrant(t.grants) && forall g :: g in t.grants ==> GrantOk(t, t.grants[g])
  {
    hide OneSession, OneReset, AccountOk, SessionOk, LoginOk, ChangeOk, Usable, WithoutSessions, Count;
    forall g | g in t.grants ensures GrantOk(t, t.grants[g]) {
      assert GrantOk(s, s.grants[g]);
    }
    forall g, h | g in t.grants && h in t.grants && Usable(t.grants[g]) && Usable(t.grants[h]) &&
      t.grants[g].account == t.grants[h].account
      ensures g == h
    {
      assert t.grants[g] == s.grants[g] && t.grants[h] == s.grants[h];
    }
  }

  lemma {:induction false} RenewKeepsRequests(s: State, t: State, a: string)
    requires Inv(s) && Renews(s, t, a)
    ensures (forall l :: l in t.logins ==> LoginOk(t, t.logins[l])) &&
      (forall c :: c in t.changes ==> ChangeOk(t, t.changes[c]))
  {
    hide OneSession, OneReset, OneGrant, AccountOk, SessionOk, GrantOk, Usable, Count;
    forall l | l in t.logins ensures LoginOk(t, t.logins[l]) { assert LoginOk(s, s.logins[l]); }
    forall c | c in t.changes ensures ChangeOk(t, t.changes[c]) { assert ChangeOk(s, s.changes[c]); }
  }

  lemma {:induction false} CreateKeeps(s: State, a: string, password: nat, now: nat)
    requires Inv(s)
    ensures Inv(Create(s, a, password, now))
  {
    hide OneSession, OneReset, OneGrant;
    var t := Create(s, a, password, now);
    if a !in s.accounts && s.networkActive {
      forall x | x in t.accounts ensures AccountOk(t, x) { if x != a { assert AccountOk(s, x); } }
      forall x | x in t.sessions ensures SessionOk(t, x) { assert SessionOk(s, x); }
      forall g | g in t.grants ensures GrantOk(t, t.grants[g]) { assert GrantOk(s, s.grants[g]); }
      forall l | l in t.logins ensures LoginOk(t, t.logins[l]) { assert LoginOk(s, s.logins[l]); }
      forall c | c in t.changes ensures ChangeOk(t, t.changes[c]) { assert ChangeOk(s, s.changes[c]); }
    }
  }

  /** Only the requests under way change. */
  lemma {:induction false} RequestsKeep(s: State, t: State)
    requires Inv(s) && t == s.(logins := t.logins, changes := t.changes)
    requires forall l :: l in t.logins ==> LoginOk(s, t.logins[l])
    requires forall c :: c in t.changes ==> ChangeOk(s, t.changes[c])
    ensures Inv(t)
  {
    hide OneSession, OneReset, OneGrant, AccountOk, GrantOk, LoginOk;
    SameRows(s, t);
    forall x | x in t.sessions ensures SessionOk(t, x) { assert SessionOk(s, x); }
    forall c | c in t.changes ensures ChangeOk(t, t.changes[c]) { assert ChangeOk(s, t.changes[c]); }
  }

  lemma {:induction false} LoginKeeps(s: State, id: nat, token: string, now: nat)
    requires Inv(s)
    ensures Inv(LoginIssue(s, id, token, now))
  {
    hide Inv, IssueSession;
    if id in s.logins {
      var t := s.(logins := s.logins - {id});
      UnderWay(s);
      RequestsKeep(s, t);
      if LoginStands(s, s.logins[id], now) && token !in s.issued {
        IssueKeeps(t, s.logins[id].account, token, now);
      }
    }
  }

  lemma {:induction false} UnderWay(s: State)
    requires Inv(s)
    ensures forall l :: l in s.logins ==> LoginOk(s, s.logins[l])
    ensures forall c :: c in s.changes ==> ChangeOk(s, s.changes[c])
    ensures forall t :: t in s.sessions ==> t in s.issued
  {
    hide LoginOk, ChangeOk;
    forall t | t in s.sessions ensures t in s.issued { assert SessionOk(s, t); }
  }

  lemma {:induction false} ReadsKeep(s: State, step: Step)
    requires Inv(s) && (step.LoginReads? || step.ChangeReads? || step.Abandons?)
    ensures Inv(Apply(s, step))
  {
    hide Inv;
    UnderWay(s);
    RequestsKeep(s, Apply(s, step));
  }

  /** A session that a change finds again still belongs to an account that is not set up. */
  lemma {:induction false} ChangeKeeps(s: State, id: nat, newToken: string)
    requires Inv(s)
    ensures Inv(ChangeWrite(s, id, newToken))
  {
    hide Inv, IssueSession, CompleteSetup, Count;
    if id in s.changes && newToken !in s.issued {
      var c := s.changes[id];
      var t := s.(changes := s.changes - {id});
      UnderWay(s);
      RequestsKeep(s, t);
      if HasSession(s, c.token, c.now) {
        var a := s.sessions[c.token].account;
        assert ChangeOk(s, c);
        CompleteKeeps(t, a, c.password, c.now);
        var u := CompleteSetup(t, a, c.password, c.now);
        IssueKeeps(u, a, newToken, c.now);
      }
    }
  }

  lemma {:induction false} CompleteKeeps(s: State, a: string, password: nat, now: nat)
    requires Inv(s) && a in s.accounts && s.accounts[a].setupAt.None?
    ensures var u := CompleteSetup(s, a, password, now);
      Inv(u) && a in u.accounts && u.accounts[a].active == s.accounts[a].active &&
        u.networkActive == s.networkActive && u.issued == s.issued
  {
    hide OneSession, OneGrant, SessionOk, LoginOk, ChangeOk, GrantOk;
    var u := CompleteSetup(s, a, password, now);
    assert AccountOk(s, a);
    assert u.accounts == s.accounts[a := u.accounts[a]];
    RenewKeeps(s, u, a);
  }

  lemma {:induction false} ResetKeeps(s: State, request: string, password: nat, now: nat)
    requires Inv(s)
    ensures Inv(ResetPassword(s, request, password, now))
  {
    hide OneSession, OneGrant, SessionOk, LoginOk, ChangeOk, GrantOk;
    var t := ResetPassword(s, request, password, now);
    if t != s {
      var a := s.resets[request].account;
      assert AccountOk(s, a);
      assert t.accounts == s.accounts[a := t.accounts[a]];
      RenewKeeps(s, t, a);
    }
  }

  lemma {:induction false} SetAccountKeeps(s: State, a: string, active: bool)
    requires Inv(s)
    ensures Inv(SetAccount(s, a, active))
  {
    hide OneSession, OneGrant, SessionOk, LoginOk, ChangeOk, GrantOk;
    var t := SetAccount(s, a, active);
    if t != s {
      assert AccountOk(s, a);
      assert t.accounts == s.accounts[a := t.accounts[a]];
      RenewKeeps(s, t, a);
    }
  }

  /** Only resets or grants change. */
  lemma {:induction false} TablesKeep(s: State, t: State)
    requires Inv(s) && t == s.(resets := t.resets, grants := t.grants)
    requires OneReset(t.resets) && OneGrant(t.grants) && forall g :: g in t.grants ==> GrantOk(s, t.grants[g])
    ensures Inv(t)
  {
    hide OneSession, OneReset, OneGrant, AccountOk, GrantOk, LoginOk;
    SameRows(s, t);
    forall x | x in t.sessions ensures SessionOk(t, x) { assert SessionOk(s, x); }
    forall c | c in t.changes ensures ChangeOk(t, t.changes[c]) { assert ChangeOk(s, s.changes[c]); }
  }

  lemma {:induction false} TablesOf(s: State)
    requires Inv(s)
    ensures OneReset(s.resets) && OneGrant(s.grants) && forall g :: g in s.grants ==> GrantOk(s, s.grants[g])
  {
    hide OneReset, OneGrant, GrantOk;
  }

  lemma {:induction false} RequestResetKeeps(s: State, request: string, a: string)
    requires Inv(s)
    ensures Inv(RequestReset(s, request, a))
  {
    hide Inv, OneGrant, GrantOk;
    TablesOf(s);
    var t := RequestReset(s, request, a);
    if t != s {
      assert forall r :: r in s.resets ==> !OpenReset(s, r, a);
      TablesKeep(s, t);
    }
  }

  lemma {:induction false} TakeGrantKeeps(s: State, token: string, g: string, now: nat)
    requires Inv(s)
    ensures Inv(TakeGrant(s, token, g, now))
  {
    hide Inv, OneReset;
    TablesOf(s);
    var t := TakeGrant(s, token, g, now);
    if t != s {
      forall h | h in t.grants ensures GrantOk(s, t.grants[h]) {
        if h != g { assert GrantOk(s, s.grants[h]); }
      }
      TablesKeep(s, t);
    }
  }

  /** A grant becomes used or revoked. */
  lemma {:induction false} SpendKeeps(s: State, step: Step)
    requires Inv(s) && (step.UsesGrant? || step.RevokesGrant?)
    ensures Inv(Apply(s, step))
  {
    hide Inv, OneReset, Authority;
    TablesOf(s);
    var t := Apply(s, step);
    if t != s {
      forall h | h in t.grants ensures GrantOk(s, t.grants[h]) {
        if h != step.grant { assert GrantOk(s, s.grants[h]); }
      }
      TablesKeep(s, t);
    }
  }

  lemma {:induction false} SetNetworkKeeps(s: State, active: bool)
    requires Inv(s)
    ensures Inv(SetNetwork(s, active))
  {
    hide OneReset;
    var t := SetNetwork(s, active);
    forall x | x in t.accounts ensures AccountOk(t, x) { assert AccountOk(s, x); }
    forall l | l in t.logins ensures LoginOk(t, t.logins[l]) { assert LoginOk(s, s.logins[l]); }
    forall c | c in t.changes ensures ChangeOk(t, t.changes[c]) { assert ChangeOk(s, s.changes[c]); }
    forall x | x in t.sessions ensures SessionOk(t, x) { assert SessionOk(s, x); }
    forall g | g in t.grants ensures GrantOk(t, t.grants[g]) { assert GrantOk(s, s.grants[g]); }
  }

  lemma {:induction false} KeepsInv(s: State, step: Step)
    requires Inv(s)
    ensures Inv(Apply(s, step))
  {
    hide Inv, Create, LoginRead, LoginIssue, ChangeRead, ChangeWrite, RequestReset, ResetPassword, TakeGrant, UseGrant,
      RevokeGrant,
      SetAccount, SetNetwork;
    match step
    case Creates(a, password, now) => CreateKeeps(s, a, password, now);
    case LoginIssues(id, token, now) => LoginKeeps(s, id, token, now);
    case LogsOut(token) => FewerSessions(s, Apply(s, step));
    case ChangeWrites(id, newToken) => ChangeKeeps(s, id, newToken);
    case RequestsReset(request, a) => RequestResetKeeps(s, request, a);
    case Resets(request, password, now) => ResetKeeps(s, request, password, now);
    case TakesGrant(token, g, now) => TakeGrantKeeps(s, token, g, now);
    case UsesGrant(_, _) => SpendKeeps(s, step);
    case RevokesGrant(_) => SpendKeeps(s, step);
    case SetsAccount(a, active) => SetAccountKeeps(s, a, active);
    case SetsNetwork(active) => SetNetworkKeeps(s, active);
    case _ => ReadsKeep(s, step);
  }

  lemma {:induction false} RunKeepsInv(steps: seq<Step>)
    ensures Inv(Run(steps))
  {
    hide Apply;
    if steps != [] {
      RunKeepsInv(steps[..|steps| - 1]);
      KeepsInv(Run(steps[..|steps| - 1]), steps[|steps| - 1]);
    }
  }

  // ---------------------------------------------------------------- main results

  /**
  In every run of racing requests: an account has at most one session, one usable grant and one open
  reset; sessions carry the current version and were opened with the current password of an active
  account; a usable grant has the authority that enrollment asks for; the initial password has an expiry
  exactly until setup is complete; and the first password was changed once if setup is complete, and
  never otherwise.
  */
  lemma {:induction false} EveryRun(steps: seq<Step>)
    ensures var s := Run(steps);
      && OneSession(s.sessions) && OneGrant(s.grants) && OneReset(s.resets)
      && (forall t :: t in s.sessions ==> SessionOk(s, t))
      && (forall g :: g in s.grants && Usable(s.grants[g]) ==> s.networkActive && Authority(s, s.grants[g]))
      && (forall a :: a in s.accounts ==> (s.accounts[a].initialExpiry.None? <==> s.accounts[a].setupAt.Some?))
      && (forall a :: a in s.accounts ==> Count(s.completions, a) == if s.accounts[a].setupAt.Some? then 1 else 0)
  {
    hide Run, OneSession, OneGrant, OneReset, SessionOk, Usable, Authority;
    RunKeepsInv(steps);
    var s := Run(steps);
    forall a | a in s.accounts ensures AccountOk(s, a) {}
    forall g | g in s.grants ensures GrantOk(s, s.grants[g]) {}
  }

  /** How an account row may change: versions grow with every new password, and setup stays complete. */
  predicate Progresses(x: Account, y: Account) {
    && x.version <= y.version
    && (x.version == y.version ==> x.password == y.password)
    && (x.setupAt.Some? ==> y.setupAt == x.setupAt)
  }

  lemma {:induction false} ReplaceRows(s: State, a: string, password: nat, now: nat, complete: bool)
    requires a in s.accounts
    ensures ReplacePassword(s, a, password, now, complete).accounts ==
      s.accounts[a := Replaced(s.accounts[a], password, now, complete)]
    ensures Progresses(s.accounts[a], Replaced(s.accounts[a], password, now, complete))
  {
    ReplacedProgresses(s.accounts[a], password, now, complete);
  }

  lemma {:induction false} PasswordProgresses(s: State, step: Step, a: string)
    requires a in s.accounts && (step.ChangeWrites? || step.Resets?)
    ensures a in Apply(s, step).accounts && Progresses(s.accounts[a], Apply(s, step).accounts[a])
  {
    hide ReplacePassword, WithoutSessions, WithoutExpired, Replaced, Progresses, HasSession, Count;
    ProgressesRefl(s.accounts[a]);
    if step.Resets? {
      ReplaceRows(s, a, step.password, step.now, false);
      if step.request in s.resets && s.resets[step.request].account in s.accounts {
        ReplaceRows(s, s.resets[step.request].account, step.password, step.now, false);
      }
    } else if step.id in s.changes && HasSession(s, s.changes[step.id].token, s.changes[step.id].now) {
      var c := s.changes[step.id];
      FoundSession(s, c.token, c.now);
      ReplaceRows(s.(changes := s.changes - {step.id}), s.sessions[c.token].account, c.password, c.now, true);
    }
  }

  lemma {:induction false} FoundSession(s: State, token: string, now: nat)
    requires HasSession(s, token, now)
    ensures token in s.sessions && s.sessions[token].account in s.accounts
  {
  }

  lemma {:induction false} StepProgresses(s: State, step: Step, a: string)
    requires a in s.accounts
    ensures a in Apply(s, step).accounts && Progresses(s.accounts[a], Apply(s, step).accounts[a])
  {
    hide WithoutSessions, WithoutExpired, RevokeUnused, Authority, OpenReset, Progresses, HasSession, LoginStands,
      ChangeWrite, ResetPassword;
    ProgressesRefl(s.accounts[a]);
    match step
    case ChangeWrites(_, _) => PasswordProgresses(s, step, a);
    case Resets(_, _, _) => PasswordProgresses(s, step, a);
    case SetsAccount(x, active) => StatusProgresses(s.accounts[a], active);
    case _ =>
  }

  lemma {:induction false} ProgressesRefl(x: Account) ensures Progresses(x, x) {}

  lemma {:induction false} ReplacedProgresses(x: Account, password: nat, now: nat, complete: bool)
    ensures Progresses(x, Replaced(x, password, now, complete))
  {
  }

  lemma {:induction false} StatusProgresses(x: Account, active: bool)
    ensures Progresses(x, x.(version := x.version + 1, active := active))
  {
  }

  /** The sessions with tokens drawn before stay or end. */
  ghost predicate KeepsTokens(s: State, t: State) {
    && s.issued <= t.issued
    && forall x :: x in s.issued && x in t.sessions ==> x in s.sessions && t.sessions[x] == s.sessions[x]
  }

  lemma {:induction false} IssueTokens(s: State, a: string, token: string, now: nat)
    requires a in s.accounts && token !in s.issued
    ensures KeepsTokens(s, IssueSession(s, a, token, now))
  {
  }

  lemma {:induction false} ReplaceTokens(s: State, a: string, password: nat, now: nat, complete: bool)
    requires a in s.accounts
    ensures KeepsTokens(s, ReplacePassword(s, a, password, now, complete)) &&
      a in ReplacePassword(s, a, password, now, complete).accounts
    ensures ReplacePassword(s, a, password, now, complete).issued == s.issued
  {
  }

  lemma {:induction false} ChangeTokens(s: State, id: nat, newToken: string)
    ensures KeepsTokens(s, ChangeWrite(s, id, newToken))
  {
    hide IssueSession, ReplacePassword, Count;
    if id in s.changes && newToken !in s.issued && HasSession(s, s.changes[id].token, s.changes[id].now) {
      var c := s.changes[id];
      var a := s.sessions[c.token].account;
      var t := s.(changes := s.changes - {id});
      ReplaceTokens(t, a, c.password, c.now, true);
      IssueTokens(CompleteSetup(t, a, c.password, c.now), a, newToken, c.now);
    }
  }

  lemma {:induction false} LoginTokens(s: State, id: nat, token: string, now: nat)
    ensures KeepsTokens(s, LoginIssue(s, id, token, now))
  {
    hide IssueSession;
    if id in s.logins && token !in s.issued && LoginStands(s, s.logins[id], now) {
      IssueTokens(s.(logins := s.logins - {id}), s.logins[id].account, token, now);
    }
  }

  lemma {:induction false} ResetTokens(s: State, request: string, password: nat, now: nat)
    ensures KeepsTokens(s, ResetPassword(s, request, password, now))
  {
    hide ReplacePassword;
    if request in s.resets && s.resets[request].account in s.accounts {
      ReplaceTokens(s, s.resets[request].account, password, now, false);
    }
  }

  /** Sessions are never rewritten, and the token of a session that ended never opens another one. */
  lemma {:induction false} StepTokens(s: State, step: Step)
    ensures KeepsTokens(s, Apply(s, step))
  {
    hide LoginIssue, ChangeWrite, ResetPassword, RevokeUnused, Authority, HasSession;
    match step
    case LoginIssues(id, token, now) => LoginTokens(s, id, token, now);
    case ChangeWrites(id, newToken) => ChangeTokens(s, id, newToken);
    case Resets(request, password, now) => ResetTokens(s, request, password, now);
    case _ =>
  }

  lemma {:induction false} RunSnoc(steps: seq<Step>, step: Step)
    ensures Run(steps + [step]) == Apply(Run(steps), step)
  {
    assert (steps + [step])[..|steps|] == steps;
  }

  /** In every continuation of a run setup stays complete, since the same time, and versions do not fall. */
  lemma {:induction false} SetupNeverReverts(steps: seq<Step>, more: seq<Step>, a: string)
    requires a in Run(steps).accounts
    ensures a in Run(steps + more).accounts && Progresses(Run(steps).accounts[a], Run(steps + more).accounts[a])
    decreases |more|
  {
    hide Run, Apply;
    if more == [] {
      assert steps + more == steps;
    } else {
      var n := |more| - 1;
      SetupNeverReverts(steps, more[..n], a);
      assert steps + more == (steps + more[..n]) + [more[n]];
      RunSnoc(steps + more[..n], more[n]);
      StepProgresses(Run(steps + more[..n]), more[n], a);
    }
  }

  lemma {:induction false} TokensStay(steps: seq<Step>, more: seq<Step>, t: string)
    requires t in Run(steps).sessions
    ensures t in Run(steps + more).issued
    ensures t in Run(steps + more).sessions ==> Run(steps + more).sessions[t] == Run(steps).sessions[t]
    decreases |more|
  {
    hide Run, Apply, Inv;
    if more == [] {
      assert steps + more == steps;
      RunKeepsInv(steps);
      UnderWay(Run(steps));
    } else {
      var n := |more| - 1;
      TokensStay(steps, more[..n], t);
      assert steps + more == (steps + more[..n]) + [more[n]];
      RunSnoc(steps + more[..n], more[n]);
      StepTokens(Run(steps + more[..n]), more[n]);
    }
  }

  /** A session that is still there later saw no password change, reset or change of status in between. */
  lemma {:induction false} SessionsEndWithTheirPassword(steps: seq<Step>, more: seq<Step>, t: string)
    requires t in Run(steps).sessions && t in Run(steps + more).sessions
    ensures var a := Run(steps).sessions[t].account;
      && a in Run(steps).accounts && a in Run(steps + more).accounts
      && Run(steps + more).accounts[a].version == Run(steps).accounts[a].version
      && Run(steps + more).accounts[a].password == Run(steps).accounts[a].password
  {
    hide Run, OneSession, OneGrant, OneReset;
    TokensStay(steps, more, t);
    EveryRun(steps);
    EveryRun(steps + more);
    assert SessionOk(Run(steps), t) && SessionOk(Run(steps + more), t);
  }

  lemma {:induction false} SessionsHaveAccounts(s: State)
    requires Inv(s)
    ensures forall t :: t in s.sessions ==>
      s.sessions[t].account in s.accounts && s.sessions[t].version == s.accounts[s.sessions[t].account].version
  {
    forall t | t in s.sessions
      ensures s.sessions[t].account in s.accounts && s.sessions[t].version == s.accounts[s.sessions[t].account].version
    {
      assert SessionOk(s, t);
    }
  }

  /**
  Enabling or disabling an account ends its sessions and grants and moves its version on; disabling also
  settles its requests for a reset.  Suspending the network ends all sessions and grants.
  */
  lemma {:induction false} StatusByName(s: State, a: string, active: bool)
    requires a in s.accounts && s.accounts[a].active != active
    ensures var t := Apply(s, SetsAccount(a, active));
      && t.accounts == s.accounts[a := s.accounts[a].(version := s.accounts[a].version + 1, active := active)]
      && (forall x :: x in t.sessions <==> x in s.sessions && s.sessions[x].account != a)
      && (forall g :: g in s.grants ==>
            g in t.grants && (t.grants[g].revoked <==> s.grants[g].revoked || s.grants[g].account == a))
      && (forall r :: r in s.resets ==>
            r in t.resets && (t.resets[r].resolved <==> s.resets[r].resolved || (s.resets[r].account == a && !active)))
    ensures var u := Apply(s, SetsNetwork(false));
      !u.networkActive && (s.networkActive ==> u.sessions == map[] && forall g :: g in u.grants ==> u.grants[g].revoked)
    ensures Apply(s, SetsNetwork(true)) == s.(networkActive := true)
  {
  }

  /** In every run a usable grant enrolls until it expires, once, and an active account can ask for a reset. */
  lemma {:induction false} GrantsAndResetsWork(steps: seq<Step>, g: string, request: string, a: string, now: nat)
    ensures var s := Run(steps);
      && (g in s.grants && !s.grants[g].used && !s.grants[g].revoked && s.grants[g].expires > now ==>
            var t := Apply(s, UsesGrant(g, now)); g in t.grants && t.grants[g].used && Apply(t, UsesGrant(g, now)) == t)
      && (s.networkActive && a in s.accounts && s.accounts[a].active && request !in s.resets &&
          (forall r :: r in s.resets ==> s.resets[r] != Reset(a, false)) ==>
            request in Apply(s, RequestsReset(request, a)).resets)
  {
    hide Run, OneSession, OneGrant, OneReset, SessionOk;
    EveryRun(steps);
  }

  /** What a successful change leaves behind. */
  lemma {:induction false} ChangedRows(s: State, id: nat, newToken: string)
    requires id in s.changes && newToken !in s.issued && s.changes[id].token in s.issued
    ensures var c := s.changes[id]; var t := ChangeWrite(s, id, newToken);
      HasSession(s, c.token, c.now) ==>
        var a := s.sessions[c.token].account;
        && a in t.accounts && t.accounts[a].setupAt.Some? && t.accounts[a].password == c.password
        && newToken in t.sessions && t.sessions[newToken].account == a && c.token !in t.sessions
  {
    hide RevokeUnused, Count;
  }

  // ---------------------------------------------------------------- the transactions, statement by statement

  class AccountServer {
    var networkActive: bool
    var accounts: map<string, Account>
    var sessions: map<string, Session>
    var grants: map<string, Grant>
    var resets: map<string, Reset>
    var logins: map<nat, Login>
    var changes: map<nat, Change>
    var issued: set<string>
    var completions: map<string, nat>

    function Value(): State
      reads this
    {
      State(networkActive, accounts, sessions, grants, resets, logins, changes, issued, completions)
    }

    ghost predicate Valid()
      reads this
    {
      Inv(Value())
    }

    constructor ()
      ensures Valid() && Value() == INITIAL
    {
      networkActive, accounts, sessions, grants, resets := true, map[], map[], map[], map[];
      logins, changes, issued, completions := map[], map[], {}, map[];
      new;
      RunKeepsInv([]);
    }

    /** `create_account`: the initial password is good for seven days. */
    method CreateAccount(a: string, password: nat, now: nat) returns (ok: bool)
      requires Valid()
      modifies this
      ensures Valid() && Value() == Apply(old(Value()), Creates(a, password, now))
      ensures ok <==> old(networkActive) && a !in old(accounts)
      ensures accounts == if ok then old(accounts)[a := Account(password, 1, Some(now + 7 * 24 * 3600), None, true)]
        else old(accounts)
    {
      hide Inv;
      KeepsInv(Value(), Creates(a, password, now));
      ok := networkActive && a !in accounts;
      if ok {
        accounts := accounts[a := Account(password, 1, Some(now + INITIAL_LIFETIME), None, true)];
      }
    }

    /** The first transaction of `login`: the password must be that of an active account. */
    method BeginLogin(id: nat, a: string, presented: nat) returns (ok: bool)
      requires Valid() && id !in logins
      modifies this
      ensures Valid() && Value() == Apply(old(Value()), LoginReads(id, a, presented))
      ensures ok <==>
        old(networkActive) && a in old(accounts) && old(accounts)[a].active && old(accounts)[a].password == presented
      ensures logins == if ok then old(logins)[id := Login(a, old(accounts)[a].version, presented)] else old(logins)
    {
      hide Inv;
      KeepsInv(Value(), LoginReads(id, a, presented));
      ok := networkActive && a in accounts && accounts[a].active && accounts[a].password == presented;
      if ok {
        logins := logins[id := Login(a, accounts[a].version, presented)];
      }
    }

    /** The first transaction of `change_password`: a live session, no setup yet, and another password. */
    method BeginChange(id: nat, token: string, password: nat, now: nat) returns (ok: bool)
      requires Valid() && id !in changes
      modifies this
      ensures Valid() && Value() == Apply(old(Value()), ChangeReads(id, token, password, now))
      ensures ok <==>
        && old(networkActive) && token in old(sessions) && old(sessions)[token].expires > now
        && (var row := old(accounts)[old(sessions)[token].account];
            row.active && row.setupAt.None? && row.password != password)
      ensures changes == if ok then old(changes)[id := Change(token, password, now)] else old(changes)
    {
      hide Inv;
      KeepsInv(Value(), ChangeReads(id, token, password, now));
      SessionsHaveAccounts(Value());
      ok := token in sessions && sessions[token].expires > now && networkActive
        && accounts[sessions[token].account].active && accounts[sessions[token].account].setupAt.None?
        && accounts[sessions[token].account].password != password;
      if ok {
        changes := changes[id := Change(token, password, now)];
      }
    }

    /** `_issue_session`: expired sessions go, then those of the account, and the new one is inserted. */
    method StoreSession(a: string, token: string, now: nat)
      requires a in accounts
      modifies this
      ensures Value() == IssueSession(old(Value()), a, token, now)
      ensures token in sessions && sessions[token].account == a && sessions[token].expires == now + 15 * 60
      ensures forall t :: t in sessions && t != token ==> sessions[t].account != a && sessions[t].expires > now
      ensures forall t ::
        t in old(sessions) && t != token && old(sessions)[t].account != a && old(sessions)[t].expires > now ==>
        t in sessions && sessions[t] == old(sessions)[t]
    {
      sessions := WithoutExpired(sessions, now);
      sessions := WithoutSessions(sessions, a);
      sessions := sessions[token := Session(a, accounts[a].version, now + SESSION_LIFETIME, accounts[a].password)];
      issued := issued + {token};
    }

    /** `_replace_password`: account row, sessions and grants. */
    method StorePassword(a: string, password: nat, now: nat, complete: bool)
      requires a in accounts
      modifies this
      ensures Value() == ReplacePassword(old(Value()), a, password, now, complete)
      ensures forall t :: t in sessions <==> t in old(sessions) && old(sessions)[t].account != a
      ensures forall g :: g in grants && grants[g].account == a ==> !Usable(grants[g])
      ensures forall x :: x in accounts && x != a ==> x in old(accounts) && accounts[x] == old(accounts)[x]
      ensures accounts[a].setupAt.Some? <==> complete || old(accounts)[a].setupAt.Some?
      ensures accounts[a].initialExpiry == if accounts[a].setupAt.Some? then None else Some(now + 7 * 24 * 3600)
      ensures accounts[a].password == password && accounts[a].version == old(accounts)[a].version + 1
    {
      var row := accounts[a];
      var completed := row.setupAt;
      if completed.None? && complete {
        completed := Some(now);
      }
      var expires := if completed.Some? then None else Some(now + INITIAL_LIFETIME);
      var version := row.version + 1;
      accounts := accounts[a :=
        row.(password := password, version := version, setupAt := completed, initialExpiry := expires)];
      sessions := WithoutSessions(sessions, a);
      grants := RevokeUnused(grants, a);
    }

    /** The second transaction of `login`. */
    method FinishLogin(id: nat, token: string, now: nat) returns (ok: bool)
      requires Valid() && id in logins && token !in issued
      modifies this
      ensures Valid() && Value() == Apply(old(Value()), LoginIssues(id, token, now))
      ensures ok <==> token in sessions
      ensures var l := old(logins)[id];
        ok <==>
        && old(networkActive) && l.account in old(accounts) && old(accounts)[l.account].active
        && old(accounts)[l.account].version == l.version
        && (old(accounts)[l.account].initialExpiry == None || old(accounts)[l.account].initialExpiry.value > now)
      ensures ok ==>
        sessions[token].account == old(logins)[id].account && sessions[token].secret == old(logins)[id].presented
    {
      hide Inv;
      KeepsInv(Value(), LoginIssues(id, token, now));
      UnderWay(Value());
      var l := logins[id];
      logins := logins - {id};
      ok := l.account in accounts && accounts[l.account].active && networkActive &&
        accounts[l.account].version == l.version
        && (accounts[l.account].initialExpiry.None? || accounts[l.account].initialExpiry.value > now);
      if ok {
        StoreSession(l.account, token, now);
      }
    }

    /** The second transaction of `change_password`; it succeeds only for an account that was not set up. */
    method FinishChange(id: nat, newToken: string) returns (ok: bool)
      requires Valid() && id in changes && newToken !in issued
      modifies this
      ensures Valid() && Value() == Apply(old(Value()), ChangeWrites(id, newToken))
      ensures var c := old(changes)[id];
        ok <==>
        && old(networkActive) && c.token in old(sessions) && old(sessions)[c.token].expires > c.now
        && old(accounts)[old(sessions)[c.token].account].active
      ensures ok ==>
        var a := old(sessions)[old(changes)[id].token].account;
        && old(accounts)[a].setupAt.None? && a in accounts && accounts[a].setupAt.Some?
        && accounts[a].password == old(changes)[id].password
        && newToken in sessions && sessions[newToken].account == a && old(changes)[id].token !in sessions
    {
      hide Inv, IssueSession, RevokeUnused, WithoutSessions, Usable, Replaced;
      ghost var before := Value();
      KeepsInv(before, ChangeWrites(id, newToken));
      UnderWay(before);
      SessionsHaveAccounts(before);
      ChangedRows(before, id, newToken);
      var c := changes[id];
      assert ChangeOk(before, c);
      ok := HasSession(Value(), c.token, c.now);
      changes := changes - {id};
      if ok {
        var a := sessions[c.token].account;
        StorePassword(a, c.password, c.now, true);
        completions := completions[a := Count(completions, a) + 1];
        StoreSession(a, newToken, c.now);
      }
    }

    /** `reset_password` */
    method FinishReset(request: string, password: nat, now: nat) returns (ok: bool)
      requires Valid()
      modifies this
      ensures Valid() && Value() == Apply(old(Value()), Resets(request, password, now))
      ensures ok <==>
        && old(networkActive) && request in old(resets) && !old(resets)[request].resolved
        && old(resets)[request].account in old(accounts) && old(accounts)[old(resets)[request].account].active
      ensures ok ==>
        var a := old(resets)[request].account;
        && a in accounts && accounts[a].password == password && accounts[a].setupAt == old(accounts)[a].setupAt
        && (forall t :: t in sessions ==> sessions[t].account != a)
        && (forall g :: g in grants && grants[g].account == a ==> !Usable(grants[g]))
    {
      hide Inv;
      KeepsInv(Value(), Resets(request, password, now));
      if request !in resets || resets[request].resolved || !networkActive {
        return false;
      }
      var a := resets[request].account;
      if a !in accounts || !accounts[a].active {
        return false;
      }
      StorePassword(a, password, now, false);
      resets := resets[request := Reset(a, true)];
      return true;
    }

    /** `enrollment_grant` */
    method IssueGrant(token: string, g: string, now: nat) returns (ok: bool)
      requires Valid() && g !in grants
      modifies this
      ensures Valid() && Value() == Apply(old(Value()), TakesGrant(token, g, now))
      ensures ok <==>
        && old(networkActive) && token in old(sessions) && old(sessions)[token].expires > now
        && old(accounts)[old(sessions)[token].account].active
        && old(accounts)[old(sessions)[token].account].setupAt.Some?
      ensures ok ==>
        && g in grants && grants[g].account == old(sessions)[token].account && Usable(grants[g])
        && grants[g].expires == now + 5 * 60
      ensures ok ==> forall h :: h in grants && UsableBySame(grants[h], grants[g]) ==> h == g
    {
      hide Inv;
      KeepsInv(Value(), TakesGrant(token, g, now));
      SessionsHaveAccounts(Value());
      if !HasSession(Value(), token, now) {
        return false;
      }
      var a := sessions[token].account;
      if accounts[a].setupAt.None? {
        return false;
      }
      grants := RevokeUnused(grants, a);
      grants := grants[g := Grant(a, accounts[a].version, now + GRANT_LIFETIME, false, false)];
      return true;
    }
  }
}
