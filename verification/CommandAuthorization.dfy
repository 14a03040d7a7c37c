/** Authorizing a command: the rows that are locked on the way, in which order, and when access is
    given. What each locking read returns is given by a directory, because each row is read once. */
module CommandAuthorization {
  import opened Releases
  import opened RowLocks
  import TextOrder

  datatype Token = Token(subject: string, property: string, revoked: bool, expired: bool)

  datatype Session = Session(subject: string, revoked: bool, expired: bool)

  datatype Credential = BySession(id: string) | ByToken(id: string)

  datatype Principal = Principal(subject: string, credential: Credential)

  datatype Grant = Grant(subject: string, property: string)

  datatype Directory = Directory(
    subjects: set<string>,
    propertyGrants: set<Grant>,
    commandGrants: map<Grant, seq<string>>,
    sessions: map<string, Session>,
    tokens: map<string, Token>,
    ceilings: map<string, seq<string>>)

  /** The command's property, whether it issues, rotates or revokes a token, and the subjects and
      tokens it concerns besides the caller's own. */
  datatype Request = Request(property: string, lifecycle: bool, subjects: seq<string>, tokens: seq<string>)

  datatype Inquiry = Inquiry(directory: Directory, principal: Principal, request: Request)

  // ---- sorted ids ----

  predicate Rising(ids: seq<string>) {
    forall i, j :: 0 <= i < j < |ids| ==> TextOrder.Less(ids[i], ids[j])
  }

  function Insert(id: string, ids: seq<string>): (r: seq<string>)
    requires Rising(ids)
    ensures Rising(r)
    ensures forall x :: x in r <==> x == id || x in ids
  {
    if ids == [] then [id]
    else if id == ids[0] then ids
    else if TextOrder.Less(id, ids[0]) then
      PrependKeepsRising(id, ids);
      [id] + ids
    else
      TextOrder.Total(id, ids[0]);
      var rest := Insert(id, ids[1..]);
      AboveHead(ids, id, rest);
      [ids[0]] + rest
  }

  lemma PrependKeepsRising(id: string, ids: seq<string>)
    requires Rising(ids) && ids != [] && TextOrder.Less(id, ids[0])
    ensures Rising([id] + ids)
  {
    forall j | 0 < j < |ids| ensures TextOrder.Less(id, ids[j]) {
      TextOrder.Transitive(id, ids[0], ids[j]);
    }
  }

  lemma AboveHead(ids: seq<string>, id: string, rest: seq<string>)
    requires Rising(ids) && ids != [] && Rising(rest) && TextOrder.Less(ids[0], id)
    requires forall x :: x in rest ==> x == id || x in ids[1..]
    ensures Rising([ids[0]] + rest)
  {
    forall j | 0 <= j < |rest| ensures TextOrder.Less(ids[0], rest[j]) {
      assert rest[j] in rest;
    }
  }

  function SortedUniqueIds(ids: seq<string>): (r: seq<string>)
    ensures Rising(r)
    ensures forall x :: x in r <==> x in ids
  {
    if ids == [] then [] else Insert(ids[0], SortedUniqueIds(ids[1..]))
  }

  // ---- the rows a request needs ----

  function SubjectsOf(c: Inquiry): seq<string> {
    [c.principal.subject] + c.request.subjects
  }

  function TokensOf(c: Inquiry): seq<string> {
    (if c.principal.credential.ByToken? then [c.principal.credential.id] else []) + c.request.tokens
  }

  function Commands(c: Inquiry, subject: string): seq<string> {
    var grant := Grant(subject, c.request.property);
    if grant in c.directory.commandGrants then SortedUniqueIds(c.directory.commandGrants[grant]) else []
  }

  function Ceiling(c: Inquiry, token: string): seq<string> {
    if token in c.directory.ceilings then SortedUniqueIds(c.directory.ceilings[token]) else []
  }

  /** Everything the decision rests on: the caller's and the related subjects with their grants, the
      session, and the tokens with their ceilings. */
  predicate Needed(c: Inquiry, r: Row) {
    match r.table
    case Subjects => r == Row(Subjects, r.id, "", "") && r.id in SubjectsOf(c)
    case PropertyGrants => r == Row(PropertyGrants, r.id, c.request.property, "") && r.id in SubjectsOf(c)
    case CommandGrants =>
      r.property == c.request.property && r.id in SubjectsOf(c) && r.command in Commands(c, r.id)
    case Sessions =>
      r == Row(Sessions, r.id, "", "") && c.principal.credential == BySession(r.id) && r.id in c.directory.sessions
    case Tokens => r == Row(Tokens, r.id, "", "") && r.id in TokensOf(c)
    case TokenCeilings => r.property == "" && r.id in TokensOf(c) && r.command in Ceiling(c, r.id)
  }

  function ModeOf(c: Inquiry, t: Table): Mode {
    if c.request.lifecycle && (t == Subjects || t == Tokens) then Update else Share
  }

  function LockOn(c: Inquiry, r: Row): Lock {
    Lock(r, ModeOf(c, r.table))
  }

  /** A subject of the request exists and may act on the property. */
  predicate Known(c: Inquiry, subject: string) {
    subject in c.directory.subjects && Grant(subject, c.request.property) in c.directory.propertyGrants
  }

  /** The caller's own token belongs to the caller, every other one to a subject of the request. */
  predicate InScope(c: Inquiry, token: string) {
    && token in c.directory.tokens && c.directory.tokens[token].property == c.request.property
    && if c.principal.credential == ByToken(token) then c.directory.tokens[token].subject == c.principal.subject
       else c.directory.tokens[token].subject in SubjectsOf(c)
  }

  predicate Live(c: Inquiry) {
    match c.principal.credential
    case BySession(id) =>
      && id in c.directory.sessions
      && var s := c.directory.sessions[id]; s.subject == c.principal.subject && !s.revoked && !s.expired
    case ByToken(id) =>
      && id in c.directory.tokens
      && var t := c.directory.tokens[id]; t.subject == c.principal.subject && !t.revoked && !t.expired
  }

  /** When access may be judged: every subject known, every token in scope, the credential live. */
  predicate Grants(c: Inquiry) {
    && (forall s :: s in SubjectsOf(c) ==> Known(c, s))
    && (forall t :: t in TokensOf(c) ==> InScope(c, t))
    && Live(c)
  }

  // ---- the same, written out ----

  /** The caller and every related subject exist and may act on the property; the caller's session or token
      is the caller's, on this property if a token, and neither revoked nor expired; every related token
      is of this property and of the caller or a related subject. */
  predicate InOrder(c: Inquiry) {
    var d, p, q := c.directory, c.principal, c.request;
    && p.subject in d.subjects && Grant(p.subject, q.property) in d.propertyGrants
    && (forall s :: s in q.subjects ==> s in d.subjects && Grant(s, q.property) in d.propertyGrants)
    && (forall t :: t in q.tokens ==>
          && t in d.tokens && d.tokens[t].property == q.property
          && (d.tokens[t].subject == p.subject || d.tokens[t].subject in q.subjects))
    && match p.credential
       case BySession(id) =>
         && id in d.sessions && d.sessions[id].subject == p.subject
         && !d.sessions[id].revoked && !d.sessions[id].expired
       case ByToken(id) =>
         && id in d.tokens && d.tokens[id].subject == p.subject && d.tokens[id].property == q.property
         && !d.tokens[id].revoked && !d.tokens[id].expired
  }

  /** The subject is locked, for update when a token is issued, rotated or revoked; its grant for the
      property and every command it may run there are locked for sharing. */
  predicate SubjectLocked(c: Inquiry, locks: seq<Lock>, s: string) {
    && Lock(Row(Subjects, s, "", ""), if c.request.lifecycle then Update else Share) in locks
    && Lock(Row(PropertyGrants, s, c.request.property, ""), Share) in locks
    && (Grant(s, c.request.property) in c.directory.commandGrants ==>
          forall command :: command in c.directory.commandGrants[Grant(s, c.request.property)] ==>
            Lock(Row(CommandGrants, s, c.request.property, command), Share) in locks)
  }

  /** The token is locked in the same way, and every command that it is limited to. */
  predicate TokenLocked(c: Inquiry, locks: seq<Lock>, t: string) {
    && Lock(Row(Tokens, t, "", ""), if c.request.lifecycle then Update else Share) in locks
    && (t in c.directory.ceilings ==>
          forall command :: command in c.directory.ceilings[t] ==>
            Lock(Row(TokenCeilings, t, "", command), Share) in locks)
  }

  predicate CallerLocked(c: Inquiry, locks: seq<Lock>) {
    && SubjectLocked(c, locks, c.principal.subject)
    && match c.principal.credential
       case BySession(id) => Lock(Row(Sessions, id, "", ""), Share) in locks
       case ByToken(id) => TokenLocked(c, locks, id)
  }

  lemma IdsAre(c: Inquiry)
    ensures forall s :: s in SubjectsOf(c) <==> s == c.principal.subject || s in c.request.subjects
    ensures forall t :: t in TokensOf(c) <==> c.principal.credential == ByToken(t) || t in c.request.tokens
  {
    assert c.principal.subject == SubjectsOf(c)[0] && SubjectsOf(c)[1..] == c.request.subjects;
    if c.principal.credential.ByToken? {
      assert TokensOf(c)[0] == c.principal.credential.id && TokensOf(c)[1..] == c.request.tokens;
    }
  }

  lemma GrantsMeans(c: Inquiry)
    ensures Grants(c) <==> InOrder(c)
  {
    IdsAre(c);
    if Grants(c) {
      assert Known(c, c.principal.subject);
      forall s | s in c.request.subjects ensures Known(c, s) {}
      forall t | t in c.request.tokens ensures InScope(c, t) {}
    }
    if InOrder(c) {
      forall s | s in SubjectsOf(c) ensures Known(c, s) {}
      forall t | t in TokensOf(c) ensures InScope(c, t) {}
    }
  }

  lemma SubjectIsLocked(c: Inquiry, locks: seq<Lock>, s: string)
    requires forall r :: Needed(c, r) ==> LockOn(c, r) in locks
    requires s in SubjectsOf(c)
    ensures SubjectLocked(c, locks, s)
  {
    assert Needed(c, Row(Subjects, s, "", "")) && Needed(c, Row(PropertyGrants, s, c.request.property, ""));
    var grant := Grant(s, c.request.property);
    if grant in c.directory.commandGrants {
      forall command | command in c.directory.commandGrants[grant]
        ensures Lock(Row(CommandGrants, s, c.request.property, command), Share) in locks
      {
        assert Needed(c, Row(CommandGrants, s, c.request.property, command));
      }
    }
  }

  lemma TokenIsLocked(c: Inquiry, locks: seq<Lock>, t: string)
    requires forall r :: Needed(c, r) ==> LockOn(c, r) in locks
    requires t in TokensOf(c)
    ensures TokenLocked(c, locks, t)
  {
    assert Needed(c, Row(Tokens, t, "", ""));
    if t in c.directory.ceilings {
      forall command | command in c.directory.ceilings[t]
        ensures Lock(Row(TokenCeilings, t, "", command), Share) in locks
      {
        assert Needed(c, Row(TokenCeilings, t, "", command));
      }
    }
  }

  lemma LockedMeans(c: Inquiry, locks: seq<Lock>)
    requires forall r :: Needed(c, r) ==> LockOn(c, r) in locks
    requires c.principal.credential.BySession? ==> c.principal.credential.id in c.directory.sessions
    ensures CallerLocked(c, locks)
    ensures forall s :: s in c.request.subjects ==> SubjectLocked(c, locks, s)
    ensures forall t :: t in c.request.tokens ==> TokenLocked(c, locks, t)
  {
    assert c.principal.subject == SubjectsOf(c)[0];
    SubjectIsLocked(c, locks, c.principal.subject);
    forall s | s in c.request.subjects ensures SubjectLocked(c, locks, s) {
      SubjectIsLocked(c, locks, s);
    }
    forall t | t in c.request.tokens ensures TokenLocked(c, locks, t) {
      TokenIsLocked(c, locks, t);
    }
    match c.principal.credential
    case BySession(id) => assert Needed(c, Row(Sessions, id, "", ""));
    case ByToken(id) =>
      assert TokensOf(c)[0] == id;
      TokenIsLocked(c, locks, id);
  }

  // ---- how far the locking has come ----

  /** Ascending locks in the modes the request asks for, on rows that it needs. */
  predicate Orderly(c: Inquiry, locks: seq<Lock>) {
    Ascending(locks) && forall l :: l in locks ==> l == LockOn(c, l.row) && Needed(c, l.row)
  }

  predicate Below(locks: seq<Lock>, r: Row) {
    forall l :: l in locks ==> RowBefore(l.row, r)
  }

  lemma OneMore(c: Inquiry, locks: seq<Lock>, r: Row)
    requires Orderly(c, locks) && Below(locks, r) && Needed(c, r)
    ensures Orderly(c, locks + [LockOn(c, r)])
  {
    forall i | 0 <= i < |locks| ensures RowBefore(locks[i].row, r) {
      assert locks[i] in locks;
    }
  }

  predicate Earlier(r: Row, t: Table, ids: seq<string>) {
    Rank(r.table) < Rank(t) || (r.table == t && r.id in ids)
  }

  /** Locked are exactly the needed rows of the tables before t, and of t those with one of the ids. */
  ghost predicate Stage(c: Inquiry, locks: seq<Lock>, t: Table, ids: seq<string>) {
    && Orderly(c, locks)
    && (forall l :: l in locks ==> Earlier(l.row, t, ids))
    && (forall r :: Needed(c, r) && Earlier(r, t, ids) ==> LockOn(c, r) in locks)
  }

  lemma StageIsBelow(c: Inquiry, locks: seq<Lock>, t: Table, ids: seq<string>, k: nat, r: Row)
    requires k < |ids| && Rising(ids) && Stage(c, locks, t, ids[..k]) && r.table == t && r.id == ids[k]
    ensures Below(locks, r)
  {
    forall l | l in locks ensures RowBefore(l.row, r) {
      TextOrder.Irreflexive(r.id);
    }
  }

  lemma NextId(c: Inquiry, locks: seq<Lock>, t: Table, ids: seq<string>, k: nat, more: seq<Lock>)
    requires k < |ids| && Stage(c, locks, t, ids[..k]) && Orderly(c, locks + more)
    requires forall l :: l in more ==> l.row.table == t && l.row.id == ids[k]
    requires forall r :: Needed(c, r) && r.table == t && r.id == ids[k] ==> LockOn(c, r) in more
    ensures Stage(c, locks + more, t, ids[..k + 1])
  {
    assert ids[..k + 1] == ids[..k] + [ids[k]];
    forall r | Needed(c, r) && Earlier(r, t, ids[..k + 1]) ensures LockOn(c, r) in locks + more {
      if r.table == t && r.id == ids[k] { assert LockOn(c, r) in more; }
    }
  }

  lemma NextTable(c: Inquiry, locks: seq<Lock>, t: Table, ids: seq<string>, u: Table)
    requires Stage(c, locks, t, ids) && Rank(u) == Rank(t) + 1
    requires forall r :: Needed(c, r) && r.table == t ==> r.id in ids
    ensures Stage(c, locks, u, [])
  {
  }

  // ---- taking the locks ----

  class Authorization {
    const inquiry: Inquiry
    var locks: seq<Lock>

    constructor (inquiry: Inquiry)
      ensures this.inquiry == inquiry && locks == []
    {
      this.inquiry, locks := inquiry, [];
    }

    method Take(r: Row)
      requires Orderly(inquiry, locks) && Below(locks, r) && Needed(inquiry, r)
      modifies this
      ensures Orderly(inquiry, locks) && locks == old(locks) + [LockOn(inquiry, r)]
    {
      OneMore(inquiry, locks, r);
      locks := locks + [LockOn(inquiry, r)];
    }

    /** Locks the one row that a table has for the next id. */
    method TakeOnly(r: Row, ids: seq<string>, k: nat)
      requires k < |ids| && Rising(ids) && Stage(inquiry, locks, r.table, ids[..k])
      requires r.id == ids[k] && Needed(inquiry, r)
      requires forall x :: Needed(inquiry, x) && x.table == r.table && x.id == ids[k] ==> x == r
      modifies this
      ensures Stage(inquiry, locks, r.table, ids[..k + 1])
    {
      StageIsBelow(inquiry, locks, r.table, ids, k, r);
      NextIdOnly(r, ids, k);
      Take(r);
    }

    lemma NextIdOnly(r: Row, ids: seq<string>, k: nat)
      requires k < |ids| && Rising(ids) && Stage(inquiry, locks, r.table, ids[..k])
      requires r.id == ids[k] && Needed(inquiry, r) && Below(locks, r)
      requires forall x :: Needed(inquiry, x) && x.table == r.table && x.id == ids[k] ==> x == r
      ensures Stage(inquiry, locks + [LockOn(inquiry, r)], r.table, ids[..k + 1])
    {
      OneMore(inquiry, locks, r);
      NextId(inquiry, locks, r.table, ids, k, [LockOn(inquiry, r)]);
    }

    method LockSubjects(ids: seq<string>) returns (ok: bool)
      requires locks == [] && ids == SortedUniqueIds(SubjectsOf(inquiry))
      modifies this
      ensures Orderly(inquiry, locks)
      ensures ok <==> forall s :: s in ids ==> s in inquiry.directory.subjects
      ensures ok ==> Stage(inquiry, locks, PropertyGrants, [])
    {
      for k := 0 to |ids|
        invariant Stage(inquiry, locks, Subjects, ids[..k])
        invariant forall i :: 0 <= i < k ==> ids[i] in inquiry.directory.subjects
      {
        if ids[k] !in inquiry.directory.subjects { return false; }
        assert ids[k] in ids;
        TakeOnly(Row(Subjects, ids[k], "", ""), ids, k);
      }
      assert ids[..|ids|] == ids;
      NextTable(inquiry, locks, Subjects, ids, PropertyGrants);
      return true;
    }

    method LockPropertyGrants(ids: seq<string>) returns (ok: bool)
      requires Stage(inquiry, locks, PropertyGrants, []) && ids == SortedUniqueIds(SubjectsOf(inquiry))
      modifies this
      ensures Orderly(inquiry, locks)
      ensures ok <==> forall s :: s in ids ==> Grant(s, inquiry.request.property) in inquiry.directory.propertyGrants
      ensures ok ==> Stage(inquiry, locks, CommandGrants, [])
    {
      for k := 0 to |ids|
        invariant Stage(inquiry, locks, PropertyGrants, ids[..k])
        invariant forall i :: 0 <= i < k ==> Grant(ids[i], inquiry.request.property) in inquiry.directory.propertyGrants
      {
        if Grant(ids[k], inquiry.request.property) !in inquiry.directory.propertyGrants { return false; }
        assert ids[k] in ids;
        TakeOnly(Row(PropertyGrants, ids[k], inquiry.request.property, ""), ids, k);
      }
      assert ids[..|ids|] == ids;
      NextTable(inquiry, locks, PropertyGrants, ids, CommandGrants);
      return true;
    }

    /** Locks the rows a table has for the next id, which differ in their commands only. */
    method TakeCommands(t: Table, ids: seq<string>, k: nat, property: string, commands: seq<string>)
      requires k < |ids| && Rising(ids) && Rising(commands) && Stage(inquiry, locks, t, ids[..k])
      requires forall r :: Needed(inquiry, r) && r.table == t && r.id == ids[k] <==>
                           r == Row(t, ids[k], property, r.command) && r.command in commands
      modifies this
      ensures Stage(inquiry, locks, t, ids[..k + 1])
    {
      ghost var before := locks;
      ghost var more: seq<Lock> := [];
      for n := 0 to |commands|
        invariant locks == before + more && Orderly(inquiry, locks)
        invariant forall l :: l in more ==>
                  l.row == Row(t, ids[k], property, l.row.command) && l.row.command in commands[..n]
        invariant forall i :: 0 <= i < n ==> LockOn(inquiry, Row(t, ids[k], property, commands[i])) in more
      {
        var row := Row(t, ids[k], property, commands[n]);
        assert commands[n] in commands;
        StageIsBelow(inquiry, before, t, ids, k, row);
        forall l | l in more ensures RowBefore(l.row, row) {
          TextOrder.Irreflexive(row.command);
        }
        Take(row);
        more := more + [LockOn(inquiry, row)];
      }
      NextId(inquiry, before, t, ids, k, more);
    }

    method LockCommandGrants(ids: seq<string>)
      requires Stage(inquiry, locks, CommandGrants, []) && ids == SortedUniqueIds(SubjectsOf(inquiry))
      modifies this
      ensures Stage(inquiry, locks, Sessions, [])
    {
      for k := 0 to |ids|
        invariant Stage(inquiry, locks, CommandGrants, ids[..k])
      {
        assert ids[k] in ids;
        TakeCommands(CommandGrants, ids, k, inquiry.request.property, Commands(inquiry, ids[k]));
      }
      assert ids[..|ids|] == ids;
      NextTable(inquiry, locks, CommandGrants, ids, Sessions);
    }

    method LockSession()
      requires Stage(inquiry, locks, Sessions, [])
      modifies this
      ensures Stage(inquiry, locks, Tokens, [])
    {
      match inquiry.principal.credential {
        case BySession(id) =>
          if id in inquiry.directory.sessions {
            TakeOnly(Row(Sessions, id, "", ""), [id], 0);
            assert [id][..1] == [id];
            NextTable(inquiry, locks, Sessions, [id], Tokens);
          } else {
            NextTable(inquiry, locks, Sessions, [], Tokens);
          }
        case ByToken(_) =>
          NextTable(inquiry, locks, Sessions, [], Tokens);
      }
    }

    method LockTokens(ids: seq<string>) returns (ok: bool)
      requires Stage(inquiry, locks, Tokens, []) && ids == SortedUniqueIds(TokensOf(inquiry))
      modifies this
      ensures Orderly(inquiry, locks)
      ensures ok <==> forall t :: t in ids ==> InScope(inquiry, t)
      ensures ok ==> Stage(inquiry, locks, TokenCeilings, [])
    {
      for k := 0 to |ids|
        invariant Stage(inquiry, locks, Tokens, ids[..k])
        invariant forall i :: 0 <= i < k ==> InScope(inquiry, ids[i])
      {
        assert ids[k] in ids;
        if ids[k] !in inquiry.directory.tokens {
          assert !InScope(inquiry, ids[k]);
          return false;
        }
        TakeOnly(Row(Tokens, ids[k], "", ""), ids, k);
        if !InScope(inquiry, ids[k]) { return false; }
      }
      assert ids[..|ids|] == ids;
      NextTable(inquiry, locks, Tokens, ids, TokenCeilings);
      return true;
    }

    method LockCeilings(ids: seq<string>)
      requires Stage(inquiry, locks, TokenCeilings, []) && ids == SortedUniqueIds(TokensOf(inquiry))
      modifies this
      ensures Stage(inquiry, locks, TokenCeilings, ids)
    {
      for k := 0 to |ids|
        invariant Stage(inquiry, locks, TokenCeilings, ids[..k])
      {
        assert ids[k] in ids;
        TakeCommands(TokenCeilings, ids, k, "", Ceiling(inquiry, ids[k]));
      }
      assert ids[..|ids|] == ids;
    }

    /** Locks in rising row order whatever the outcome; access is judged exactly when the request is
        in order, and then with every row that the judgement reads under lock. */
    method AuthorizeCommandAccess() returns (ok: bool)
      requires locks == []
      modifies this
      ensures Orderly(inquiry, locks)
      ensures ok <==> Grants(inquiry)
      ensures ok ==> forall r :: Needed(inquiry, r) ==> LockOn(inquiry, r) in locks
      ensures ok <==> InOrder(inquiry)
      ensures ok ==> CallerLocked(inquiry, locks) && forall s :: s in inquiry.request.subjects ==>
                SubjectLocked(inquiry, locks, s)
      ensures ok ==> forall t :: t in inquiry.request.tokens ==> TokenLocked(inquiry, locks, t)
    {
      GrantsMeans(inquiry);
      var subjectIds := SortedUniqueIds(SubjectsOf(inquiry));
      assert forall s :: s in subjectIds <==> s in SubjectsOf(inquiry);
      ok := LockSubjects(subjectIds);
      if !ok { return; }
      ok := LockPropertyGrants(subjectIds);
      if !ok { return; }
      LockCommandGrants(subjectIds);
      LockSession();
      var tokenIds := SortedUniqueIds(TokensOf(inquiry));
      assert forall t :: t in tokenIds <==> t in TokensOf(inquiry);
      ok := LockTokens(tokenIds);
      if !ok { return; }
      LockCeilings(tokenIds);
      EverythingLocked(inquiry, locks, tokenIds);
      if Live(inquiry) { LockedMeans(inquiry, locks); }
      ok := Live(inquiry);
    }
  }

  lemma EverythingLocked(c: Inquiry, locks: seq<Lock>, ids: seq<string>)
    requires Stage(c, locks, TokenCeilings, ids) && forall t :: t in TokensOf(c) ==> t in ids
    ensures forall r :: Needed(c, r) ==> LockOn(c, r) in locks
  {
    forall r | Needed(c, r) ensures LockOn(c, r) in locks {
      assert Earlier(r, TokenCeilings, ids);
    }
  }

  /** Any number of authorizations, each somewhere along its locks: none waits in a circle, and all of
      them can get every lock and end. */
  lemma AuthorizationsNeverDeadlock(inquiries: seq<Inquiry>, s: System) returns (actions: seq<Action>, last: System)
    requires |s| == |inquiries|
    requires forall i :: 0 <= i < |s| ==> Orderly(inquiries[i], s[i].plan) && s[i].taken <= |s[i].plan|
    ensures forall path: seq<nat> :: |path| > 1 && WaitPath(s, path) ==> path[0] != path[|path| - 1]
    ensures Leads(s, actions, last) && RunOut(s, last)
  {
    forall path: seq<nat> | |path| > 1 && WaitPath(s, path) ensures path[0] != path[|path| - 1] {
      NoCycle(s, path);
    }
    actions, last := AllCanEnd(s);
  }
}
