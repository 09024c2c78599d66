// Who may use the box: the declaration, the map rendered from it, and the two
// readers of that map (release/users.go, authuser/resolve.go).
module UserMaps {
  import opened Options

  datatype User = User(identity: string, osUser: string)

  // In pieces: the solver does not look inside a longer literal.
  const COMMENT :=
    "# Generated by `tl-users " + "apply` from " + "/etc/terminal-lobby.users" + " \U{2014} DO NOT EDIT " + "BY HAND."
  const LEGEND := "# <identity>=<os_user>; " + "the identity is matched " + "on its local part."

  // ---------- texts ----------

  /** unicode.IsSpace. */
  predicate IsSpace(c: char) {
    || '\t' <= c <= '\r' || c == ' ' || c == '\U{85}' || c == '\U{A0}' || c == '\U{1680}'
    || '\U{2000}' <= c <= '\U{200A}' || c == '\U{2028}' || c == '\U{2029}' || c == '\U{202F}'
    || c == '\U{205F}' || c == '\U{3000}'
  }

  function TrimLeft(s: string): string {
    if s != "" && IsSpace(s[0]) then TrimLeft(s[1..]) else s
  }

  function TrimRight(s: string): string {
    if s != "" && IsSpace(s[|s| - 1]) then TrimRight(s[..|s| - 1]) else s
  }

  function TrimSpace(s: string): string {
    TrimRight(TrimLeft(s))
  }

  predicate Trimmed(s: string) {
    s == "" || (!IsSpace(s[0]) && !IsSpace(s[|s| - 1]))
  }

  lemma {:induction false} TrimLeftTrims(s: string)
    ensures TrimLeft(s) == "" || !IsSpace(TrimLeft(s)[0])
    ensures forall c :: c in TrimLeft(s) ==> c in s
  {
    if s != "" && IsSpace(s[0]) { TrimLeftTrims(s[1..]); }
  }

  lemma {:induction false} TrimRightTrims(s: string)
    requires s == "" || !IsSpace(s[0])
    ensures Trimmed(TrimRight(s))
    ensures forall c :: c in TrimRight(s) ==> c in s
    ensures s != "" ==> TrimRight(s) != "" && TrimRight(s)[0] == s[0]
  {
    if s != "" && IsSpace(s[|s| - 1]) { TrimRightTrims(s[..|s| - 1]); }
  }

  lemma Trims(s: string)
    ensures Trimmed(TrimSpace(s)) && forall c :: c in TrimSpace(s) ==> c in s
    ensures Trimmed(s) ==> TrimSpace(s) == s
  {
    TrimLeftTrims(s);
    TrimRightTrims(TrimLeft(s));
  }

  /** Where c first is in s, |s| if nowhere. */
  function Index(s: string, c: char): (i: nat)
    ensures i <= |s|
    ensures i < |s| <==> c in s
    ensures i < |s| ==> s[i] == c
    ensures c !in s[..i]
  {
    if s == "" then 0
    else if s[0] == c then 0
    else
      assert s == [s[0]] + s[1..];
      var i := Index(s[1..], c);
      assert s[..i + 1] == [s[0]] + s[1..][..i];
      i + 1
  }

  lemma IndexIs(a: string, c: char, b: string)
    requires c !in a
    ensures Index(a + [c] + b, c) == |a|
  {
    var s := a + [c] + b;
    var i := Index(s, c);
    assert s[|a|] == c;
    assert forall k :: 0 <= k < |a| ==> s[k] == a[k];
    assert forall k :: 0 <= k < i ==> s[..i][k] == s[k];
  }

  function Lines(text: string): seq<string>
    decreases |text|
  {
    var i := Index(text, '\n');
    if i == |text| then [text] else [text[..i]] + Lines(text[i + 1..])
  }

  lemma FirstLine(line: string, rest: string)
    requires '\n' !in line
    ensures Lines(line + "\n" + rest) == [line] + Lines(rest)
  {
    var s := line + "\n" + rest;
    IndexIs(line, '\n', rest);
    assert s[..|line|] == line && s[|line| + 1..] == rest;
  }

  // ---------- the declaration ----------

  predicate RegexSpace(c: char) {
    c == '\t' || c == '\n' || c == '\U{C}' || c == '\r' || c == ' '
  }

  predicate UsableIdentity(s: string) {
    1 <= |s| <= 128 && forall c :: c in s ==> !RegexSpace(c) && c != '='
  }

  predicate NameChar(c: char) {
    'a' <= c <= 'z' || 'A' <= c <= 'Z' || '0' <= c <= '9' || c == '_'
  }

  predicate UsableAccount(s: string) {
    1 <= |s| <= 32 && NameChar(s[0]) && forall c :: c in s ==> NameChar(c) || c == '-'
  }

  datatype Row = Skip | Bad | Declares(user: User)

  function ReadRow(raw: string): Row {
    var line := TrimSpace(raw);
    if line == "" || line[0] == '#' then Skip else
    var eq := Index(line, '=');
    if eq == |line| || '=' in line[eq + 1..] then Bad else
    var u := User(TrimSpace(line[..eq]), TrimSpace(line[eq + 1..]));
    if UsableIdentity(u.identity) && UsableAccount(u.osUser) then Declares(u) else Bad
  }

  predicate Claimed(users: seq<User>, u: User) {
    exists i :: 0 <= i < |users| && (users[i].identity == u.identity || users[i].osUser == u.osUser)
  }

  /** The rows in order; None for a malformed one, or a name declared twice. */
  function Collected(lines: seq<string>, users: seq<User>): Option<seq<User>> {
    if lines == [] then Some(users) else
    match ReadRow(lines[0])
    case Skip => Collected(lines[1..], users)
    case Bad => None
    case Declares(u) => if Claimed(users, u) then None else Collected(lines[1..], users + [u])
  }

  /** What every declared user is. */
  predicate Proper(u: User) {
    && UsableIdentity(u.identity) && Trimmed(u.identity) && u.identity[0] != '#' && UsableAccount(u.osUser)
  }

  /** Every user proper, no identity and no account twice. */
  predicate AllProper(users: seq<User>) {
    users == [] || (Proper(users[0]) && !Claimed(users[1..], users[0]) && AllProper(users[1..]))
  }

  lemma {:induction false} ProperLast(users: seq<User>, u: User)
    requires AllProper(users) && Proper(u)
    ensures AllProper(users + [u]) <==> !Claimed(users, u)
  {
    if users != [] {
      var rest := users[1..];
      assert (users + [u])[1..] == rest + [u] && users == [users[0]] + rest;
      ProperLast(rest, u);
      ClaimedLast(rest, u);
      ClaimedFirst(rest, users[0], u);
    }
  }

  lemma {:induction false} ProperPrefix(a: seq<User>, b: seq<User>)
    requires AllProper(a + b)
    ensures AllProper(a)
  {
    if a != [] {
      assert (a + b)[1..] == a[1..] + b;
      ProperPrefix(a[1..], b);
      ClaimedMore(a[1..], b, a[0]);
    }
  }

  lemma ClaimedMore(a: seq<User>, b: seq<User>, u: User)
    ensures Claimed(a, u) ==> Claimed(a + b, u)
  {
    assert forall i :: 0 <= i < |a| ==> (a + b)[i] == a[i];
  }

  lemma RowIsProper(raw: string)
    ensures ReadRow(raw).Declares? ==> Proper(ReadRow(raw).user)
  {
    var line := TrimSpace(raw);
    Trims(raw);
    if ReadRow(raw).Declares? {
      var eq := Index(line, '=');
      var left := line[..eq];
      Trims(left);
      TrimLeftTrims(left);
      TrimRightTrims(TrimLeft(left));
      if eq > 0 { assert left[0] == line[0] && TrimLeft(left) == left; }
    }
  }

  // What a row is, letter by letter.

  predicate Spaces(s: string) {
    forall c :: c in s ==> IsSpace(c)
  }

  /** Nothing but space, up to the end or a comment. */
  predicate Blank(raw: string, before: string, rest: string) {
    raw == before + rest && Spaces(before) && (rest == "" || rest[0] == '#')
  }

  /** An identity, an equals sign and an account, with space only around them. */
  predicate Spelled(raw: string, a: string, identity: string, b: string, c: string, osUser: string, d: string) {
    && raw == a + (identity + b + "=" + (c + osUser)) + d
    && Spaces(a) && Spaces(b) && Spaces(c) && Spaces(d)
    && UsableIdentity(identity) && Trimmed(identity) && identity[0] != '#' && UsableAccount(osUser)
  }

  lemma {:induction false} LeftCut(s: string) returns (a: string)
    ensures s == a + TrimLeft(s) && Spaces(a)
  {
    a := "";
    if s != "" && IsSpace(s[0]) {
      var rest := LeftCut(s[1..]);
      a := [s[0]] + rest;
      assert s == [s[0]] + s[1..];
    }
  }

  lemma {:induction false} RightCut(s: string) returns (b: string)
    ensures s == TrimRight(s) + b && Spaces(b)
  {
    b := "";
    if s != "" && IsSpace(s[|s| - 1]) {
      var n := |s| - 1;
      var rest := RightCut(s[..n]);
      b := rest + [s[n]];
      assert s == s[..n] + [s[n]];
    }
  }

  lemma {:induction false} LeftOf(a: string, s: string)
    requires Spaces(a) && (s == "" || !IsSpace(s[0]))
    ensures TrimLeft(a + s) == s
  {
    if a == "" {
      assert a + s == s;
    } else {
      assert (a + s)[1..] == a[1..] + s && (a + s)[0] == a[0] && a[0] in a;
      LeftOf(a[1..], s);
    }
  }

  lemma {:induction false} RightOf(s: string, b: string)
    requires Spaces(b) && (s == "" || !IsSpace(s[|s| - 1]))
    ensures TrimRight(s + b) == s
  {
    if b == "" {
      assert s + b == s;
    } else {
      var n := |b| - 1;
      assert (s + b)[..|s + b| - 1] == s + b[..n] && (s + b)[|s + b| - 1] == b[n] && b[n] in b;
      RightOf(s, b[..n]);
    }
  }

  lemma TrimOf(a: string, s: string, b: string)
    requires Spaces(a) && Spaces(b) && Trimmed(s)
    ensures TrimSpace(a + s + b) == s
  {
    if s == "" {
      assert a + s + b == (a + b) + "";
      LeftOf(a + b, "");
    } else {
      assert a + s + b == a + (s + b) && (s + b)[0] == s[0];
      LeftOf(a, s + b);
      RightOf(s, b);
    }
  }

  lemma SpelledDeclares(raw: string, a: string, identity: string, b: string, c: string, osUser: string, d: string)
    requires Spelled(raw, a, identity, b, c, osUser, d)
    ensures ReadRow(raw) == Declares(User(identity, osUser))
  {
    hide IsSpace;
    var left, right := identity + b, c + osUser;
    var line := left + "=" + right;
    assert osUser[0] in osUser && osUser[|osUser| - 1] in osUser;
    NoSpaces();
    assert line[0] == identity[0] && line[|line| - 1] == osUser[|osUser| - 1];
    TrimOf(a, line, d);
    IndexIs(left, '=', right);
    assert line[..|left|] == left && line[|left| + 1..] == right;
    assert "" + identity + b == left && c + osUser + "" == right;
    TrimOf("", identity, b);
    TrimOf(c, osUser, "");
  }

  lemma NoSpaces()
    ensures !IsSpace('#') && !IsSpace('=')
    ensures forall c :: NameChar(c) || c == '-' ==> !IsSpace(c) && c != '='
  {
  }

  lemma DeclaresSpelled(raw: string) returns (a: string, b: string, c: string, d: string)
    requires ReadRow(raw).Declares?
    ensures Spelled(raw, a, ReadRow(raw).user.identity, b, c, ReadRow(raw).user.osUser, d)
  {
    hide IsSpace;
    var u := ReadRow(raw).user;
    RowIsProper(raw);
    var line := TrimSpace(raw);
    var eq := Index(line, '=');
    var left, right := line[..eq], line[eq + 1..];
    assert line == left + "=" + right;
    var a0, d0 := Cut(raw);
    var a1, b1 := Cut(left);
    var c1, d1 := Cut(right);
    a, b, c, d := a0 + a1, b1, c1, d1 + d0;
    var core := u.identity + b + "=" + (c + u.osUser);
    Regrouped(a0, a1, u.identity, b, c, u.osUser, d1, d0);
    assert line == a1 + core + d1;
    hide UsableIdentity, UsableAccount, Trimmed;
    assert Spaces(a) && Spaces(d);
  }

  lemma Regrouped(a0: string, a1: string, i: string, b: string, c: string, o: string, d1: string, d0: string)
    ensures var core := i + b + "=" + (c + o);
      && (a1 + i + b) + "=" + (c + o + d1) == a1 + core + d1
      && a0 + (a1 + core + d1) + d0 == (a0 + a1) + core + (d1 + d0)
  {
  }

  lemma Cut(s: string) returns (a: string, b: string)
    ensures s == a + TrimSpace(s) + b && Spaces(a) && Spaces(b)
  {
    a := LeftCut(s);
    b := RightCut(TrimLeft(s));
  }

  /** A line declares a user exactly when it is the identity, an equals sign and
      the account, with space around them; it is passed over exactly when it is
      blank or a comment; any other line is malformed. */
  lemma RowMeans(raw: string)
    ensures forall u ::
      ReadRow(raw) == Declares(u) <==> exists a, b, c, d :: Spelled(raw, a, u.identity, b, c, u.osUser, d)
    ensures ReadRow(raw) == Skip <==> exists before, rest :: Blank(raw, before, rest)
  {
    hide Spelled, Spaces;
    forall u ensures ReadRow(raw) == Declares(u) <==>
                     exists a, b, c, d :: Spelled(raw, a, u.identity, b, c, u.osUser, d)
    {
      if ReadRow(raw) == Declares(u) { var a, b, c, d := DeclaresSpelled(raw); }
      if a, b, c, d :| Spelled(raw, a, u.identity, b, c, u.osUser, d) {
        SpelledDeclares(raw, a, u.identity, b, c, u.osUser, d);
      }
    }
    BlankSkips(raw);
  }

  lemma BlankSkips(raw: string)
    ensures ReadRow(raw) == Skip <==> exists before, rest :: Blank(raw, before, rest)
  {
    hide IsSpace;
    var line := TrimSpace(raw);
    if ReadRow(raw) == Skip {
      var a, b := Cut(raw);
      if line == "" {
        assert raw == raw + "" && Spaces(raw);
        assert Blank(raw, raw, "");
      } else {
        assert raw == a + (line + b);
        assert Blank(raw, a, line + b);
      }
    }
    if before, rest :| Blank(raw, before, rest) {
      NoSpaces();
      LeftOf(before, rest);
      TrimRightTrims(rest);
    }
  }

  /** The rows of a declaration, in order. */
  function Rows(lines: seq<string>): seq<User> {
    if lines == [] then []
    else (if ReadRow(lines[0]).Declares? then [ReadRow(lines[0]).user] else []) + Rows(lines[1..])
  }

  predicate NoneBad(lines: seq<string>) {
    forall i :: 0 <= i < |lines| ==> ReadRow(lines[i]) != Bad
  }

  /** A declaration is taken exactly when no line is malformed and no identity or
      account is on two rows; then it is all its rows. */
  lemma {:induction false} CollectedIs(lines: seq<string>, users: seq<User>)
    requires AllProper(users)
    ensures Collected(lines, users) ==
      if NoneBad(lines) && AllProper(users + Rows(lines)) then Some(users + Rows(lines)) else None
  {
    hide ReadRow, Claimed, Proper;
    if lines == [] {
      assert users + [] == users;
    } else {
      var row, rest := ReadRow(lines[0]), lines[1..];
      RowIsProper(lines[0]);
      FirstRow(lines);
      match row
      case Skip => CollectedIs(rest, users);
      case Bad =>
      case Declares(u) =>
        ProperLast(users, u);
        assert users + ([u] + Rows(rest)) == users + [u] + Rows(rest);
        if Claimed(users, u) {
          if AllProper(users + Rows(lines)) { ProperPrefix(users + [u], Rows(rest)); }
        } else {
          CollectedIs(rest, users + [u]);
        }
    }
  }

  lemma FirstRow(lines: seq<string>)
    requires lines != []
    ensures var row, rest := ReadRow(lines[0]), lines[1..];
      && (NoneBad(lines) <==> row != Bad && NoneBad(rest))
      && Rows(lines) == if row.Declares? then [row.user] + Rows(rest) else Rows(rest)
  {
    var rest := lines[1..];
    assert forall i :: 0 < i < |lines| ==> lines[i] == rest[i - 1];
    if NoneBad(lines) { assert forall i :: 0 <= i < |rest| ==> rest[i] == lines[i + 1]; }
  }

  // ---------- the order accounts are listed in ----------

  predicate Below(a: string, b: string) {
    if b == "" then false
    else if a == "" then true
    else a[0] < b[0] || (a[0] == b[0] && Below(a[1..], b[1..]))
  }

  lemma {:induction false} BelowTotal(a: string, b: string)
    ensures a == b || Below(a, b) || Below(b, a)
    ensures !(Below(a, b) && Below(b, a)) && (a == b ==> !Below(a, b))
  {
    if a != "" && b != "" {
      BelowTotal(a[1..], b[1..]);
      assert a == [a[0]] + a[1..] && b == [b[0]] + b[1..];
    }
  }

  predicate SortedTexts(s: seq<string>) {
    |s| <= 1 || (!Below(s[1], s[0]) && SortedTexts(s[1..]))
  }

  function InsertText(s: seq<string>, x: string): (r: seq<string>)
    ensures |r| == |s| + 1 && (r[0] == x || (s != [] && r[0] == s[0]))
  {
    if s == [] || Below(x, s[0]) then [x] + s else [s[0]] + InsertText(s[1..], x)
  }

  /** sort.Strings. */
  function SortTexts(s: seq<string>): (r: seq<string>)
    ensures |r| == |s|
  {
    if s == [] then [] else InsertText(SortTexts(s[1..]), s[0])
  }

  lemma {:induction false} InsertTextSorts(s: seq<string>, x: string)
    requires SortedTexts(s)
    ensures SortedTexts(InsertText(s, x)) && multiset(InsertText(s, x)) == multiset(s) + multiset{x}
  {
    if s == [] || Below(x, s[0]) {
      assert ([x] + s)[1..] == s;
      if s != [] { BelowTotal(x, s[0]); }
    } else {
      InsertTextSorts(s[1..], x);
      BelowTotal(x, s[0]);
      assert s == [s[0]] + s[1..];
      var r := InsertText(s[1..], x);
      assert ([s[0]] + r)[1..] == r && ([s[0]] + r)[1] == r[0];
    }
  }

  lemma {:induction false} SortTextsSorts(s: seq<string>)
    ensures SortedTexts(SortTexts(s)) && multiset(SortTexts(s)) == multiset(s)
  {
    if s != [] {
      SortTextsSorts(s[1..]);
      InsertTextSorts(SortTexts(s[1..]), s[0]);
      assert s == [s[0]] + s[1..];
    }
  }

  predicate SortedUsers(users: seq<User>) {
    |users| <= 1 || (Below(users[0].osUser, users[1].osUser) && SortedUsers(users[1..]))
  }

  function InsertUser(users: seq<User>, u: User): (r: seq<User>)
    ensures |r| == |users| + 1 && (r[0] == u || (users != [] && r[0] == users[0]))
  {
    if users == [] || Below(u.osUser, users[0].osUser) then [u] + users else [users[0]] + InsertUser(users[1..], u)
  }

  /** sort.Slice by account. */
  function SortUsers(users: seq<User>): (r: seq<User>)
    ensures |r| == |users|
  {
    if users == [] then [] else InsertUser(SortUsers(users[1..]), users[0])
  }

  lemma ClaimedFirst(users: seq<User>, v: User, u: User)
    ensures Claimed([v] + users, u) <==> v.identity == u.identity || v.osUser == u.osUser || Claimed(users, u)
  {
    var us := [v] + users;
    if Claimed(users, u) {
      var i :| 0 <= i < |users| && (users[i].identity == u.identity || users[i].osUser == u.osUser);
      assert us[i + 1] == users[i];
    }
    assert us[0] == v;
    if Claimed(us, u) {
      var i :| 0 <= i < |us| && (us[i].identity == u.identity || us[i].osUser == u.osUser);
      if i > 0 { assert us[i] == users[i - 1]; }
    }
  }

  lemma {:induction false} InsertClaimed(users: seq<User>, v: User, u: User)
    ensures Claimed(InsertUser(users, v), u) <==> v.identity == u.identity || v.osUser == u.osUser || Claimed(users, u)
  {
    ClaimedFirst(users, v, u);
    if users != [] && !Below(v.osUser, users[0].osUser) {
      assert users == [users[0]] + users[1..];
      InsertClaimed(users[1..], v, u);
      ClaimedFirst(InsertUser(users[1..], v), users[0], u);
      ClaimedFirst(users[1..], users[0], u);
    }
  }

  lemma {:induction false} InsertUserSorts(users: seq<User>, u: User)
    requires SortedUsers(users) && AllProper([u] + users)
    ensures SortedUsers(InsertUser(users, u)) && AllProper(InsertUser(users, u))
    ensures multiset(InsertUser(users, u)) == multiset(users) + multiset{u}
  {
    if users == [] || Below(u.osUser, users[0].osUser) {
      assert ([u] + users)[1..] == users;
    } else {
      var rest := users[1..];
      assert users == [users[0]] + rest;
      ClaimedFirst(rest, users[0], u);
      InsertUserSorts(rest, u);
      var r := InsertUser(rest, u);
      InsertClaimed(rest, u, users[0]);
      BelowTotal(users[0].osUser, u.osUser);
      if r[0] != u { assert r[0] == users[1]; }
      assert ([users[0]] + r)[1..] == r && ([users[0]] + r)[1] == r[0];
    }
  }

  /** Sorting keeps the users and their distinctness. */
  lemma {:induction false} SortUsersSorts(users: seq<User>)
    requires AllProper(users)
    ensures SortedUsers(SortUsers(users)) && AllProper(SortUsers(users))
    ensures multiset(SortUsers(users)) == multiset(users)
  {
    if users != [] {
      var u, rest := users[0], users[1..];
      assert users == [u] + rest;
      SortUsersSorts(rest);
      SortClaimed(rest, u);
      InsertUserSorts(SortUsers(rest), u);
    }
  }

  lemma {:induction false} SortClaimed(users: seq<User>, u: User)
    ensures Claimed(SortUsers(users), u) <==> Claimed(users, u)
  {
    if users != [] {
      assert users == [users[0]] + users[1..];
      SortClaimed(users[1..], u);
      InsertClaimed(SortUsers(users[1..]), users[0], u);
      ClaimedFirst(users[1..], users[0], u);
    }
  }

  /** ParseUsers: every line is a row, a comment or blank, or the text is refused;
      what is accepted is exactly the rows, by account, nobody and no account
      twice. */
  method ParseUsers(text: string) returns (r: Option<seq<User>>)
    ensures r.Some? <==> NoneBad(Lines(text)) && AllProper(Rows(Lines(text)))
    ensures r.Some? ==>
      && AllProper(r.value) && SortedUsers(r.value) && multiset(r.value) == multiset(Rows(Lines(text)))
  {
    var lines := Lines(text);
    var out: seq<User>, identities: set<string>, accounts: set<string> := [], {}, {};
    CollectedIs(lines, []);
    assert [] + Rows(lines) == Rows(lines);
    for i := 0 to |lines|
      invariant Collected(lines, []) == Collected(lines[i..], out)
      invariant forall u :: Claimed(out, u) <==> u.identity in identities || u.osUser in accounts
    {
      assert lines[i..][1..] == lines[i + 1..];
      match ReadRow(lines[i])
      case Skip =>
      case Bad => return None;
      case Declares(u) =>
        assert Claimed(out, u) <==> u.identity in identities || u.osUser in accounts;
        if u.identity in identities { return None; }
        if u.osUser in accounts { return None; }
        ClaimedLast(out, u);
        identities, accounts := identities + {u.identity}, accounts + {u.osUser};
        out := out + [u];
    }
    assert lines[|lines|..] == [];
    SortUsersSorts(out);
    return Some(SortUsers(out));
  }

  lemma ClaimedLast(users: seq<User>, v: User)
    ensures forall u ::
      Claimed(users + [v], u) <==> v.identity == u.identity || v.osUser == u.osUser || Claimed(users, u)
  {
    var us := users + [v];
    forall u: User ensures Claimed(us, u) <==> v.identity == u.identity || v.osUser == u.osUser || Claimed(users, u) {
      if Claimed(users, u) {
        var i :| 0 <= i < |users| && (users[i].identity == u.identity || users[i].osUser == u.osUser);
        assert us[i] == users[i];
      }
      assert us[|users|] == v;
    }
  }

  // ---------- the rendered map ----------

  function RowText(u: User): string {
    u.identity + "=" + u.osUser
  }

  function RowsText(users: seq<User>): string {
    if users == [] then "" else RowText(users[0]) + "\n" + RowsText(users[1..])
  }

  function Rendered(users: seq<User>): string {
    COMMENT + "\n" + (LEGEND + "\n" + RowsText(users))
  }

  method RenderUserMap(users: seq<User>) returns (text: string)
    ensures text == Rendered(users)
  {
    text := COMMENT + "\n";
    text := text + (LEGEND + "\n");
    for i := 0 to |users|
      invariant Rendered(users) == text + RowsText(users[i..])
    {
      assert users[i..][1..] == users[i + 1..];
      ghost var rest := RowsText(users[i + 1..]);
      assert text + (RowText(users[i]) + "\n" + rest) == text + (RowText(users[i]) + "\n") + rest;
      text := text + (RowText(users[i]) + "\n");
    }
    assert users[|users|..] == [];
  }

  function RowLines(users: seq<User>): seq<string> {
    if users == [] then [""] else [RowText(users[0])] + RowLines(users[1..])
  }

  lemma Headers()
    ensures '\n' !in COMMENT && COMMENT[0] == '#' && Trimmed(COMMENT)
    ensures '\n' !in LEGEND && LEGEND[0] == '#' && Trimmed(LEGEND)
  {
    LegendHeader();
  }

  lemma LegendHeader()
    ensures '\n' !in LEGEND && LEGEND[0] == '#' && Trimmed(LEGEND)
  {
  }

  lemma ProperRow(u: User)
    requires Proper(u)
    ensures '\n' !in RowText(u) && Trimmed(RowText(u)) && RowText(u)[0] != '#'
    ensures Index(RowText(u), '=') == |u.identity|
    ensures RowText(u)[..|u.identity|] == u.identity && RowText(u)[|u.identity| + 1..] == u.osUser
    ensures Trimmed(u.osUser) && ':' !in u.osUser && '#' !in u.osUser && '=' !in u.osUser
  {
    AccountChars(u);
    IndexIs(u.identity, '=', u.osUser);
  }

  lemma AccountChars(u: User)
    requires Proper(u)
    ensures Trimmed(u.osUser) && ':' !in u.osUser && '#' !in u.osUser && '=' !in u.osUser && '\n' !in u.osUser
  {
    assert u.osUser[|u.osUser| - 1] in u.osUser && u.osUser[0] in u.osUser;
  }

  lemma {:induction false} RowsLines(users: seq<User>)
    requires AllProper(users)
    ensures Lines(RowsText(users)) == RowLines(users)
  {
    if users != [] {
      ProperRow(users[0]);
      FirstLine(RowText(users[0]), RowsText(users[1..]));
      RowsLines(users[1..]);
    }
  }

  lemma RenderedLines(users: seq<User>)
    requires AllProper(users)
    ensures Lines(Rendered(users)) == [COMMENT] + ([LEGEND] + RowLines(users))
  {
    Headers();
    FirstLine(COMMENT, LEGEND + "\n" + RowsText(users));
    FirstLine(LEGEND, RowsText(users));
    RowsLines(users);
  }

  // ---------- the services' reader ----------

  /** What one line puts in the map. */
  function Put(m: map<string, string>, raw: string): map<string, string> {
    var line := TrimSpace(raw);
    if line == "" || line[0] == '#' then m else
    var eq := Index(line, '=');
    if eq == 0 || eq == |line| then m else
    var identity := TrimSpace(line[..eq]);
    var all := TrimSpace(line[eq + 1..]);
    var c := Index(all, ':');
    var osUser := if 0 < c < |all| then all[..c] else all;
    if identity != "" && osUser != "" then m[identity := osUser] else m
  }

  function MapOf(lines: seq<string>, m: map<string, string>): map<string, string> {
    if lines == [] then m else MapOf(lines[1..], Put(m, lines[0]))
  }

  /** userMap, over the lines readNumberedLines keeps. */
  method UserMap(text: string) returns (m: map<string, string>)
    ensures m == MapOf(Lines(text), map[])
  {
    m := UserMapOfLines(Lines(text));
  }

  method UserMapOfLines(lines: seq<string>) returns (m: map<string, string>)
    ensures m == MapOf(lines, map[])
  {
    m := map[];
    for i := 0 to |lines|
      invariant MapOf(lines, map[]) == MapOf(lines[i..], m)
    {
      assert lines[i..][1..] == lines[i + 1..];
      var line := TrimSpace(lines[i]);
      if line == "" || line[0] == '#' { continue; }
      var eq := Index(line, '=');
      if eq == 0 || eq == |line| { continue; }
      var identity := TrimSpace(line[..eq]);
      var osUser := TrimSpace(line[eq + 1..]);
      var c := Index(osUser, ':');
      if 0 < c < |osUser| { osUser := osUser[..c]; }
      if identity != "" && osUser != "" { m := m[identity := osUser]; }
    }
    assert lines[|lines|..] == [];
  }

  predicate HasPair(users: seq<User>, identity: string, osUser: string) {
    exists i :: 0 <= i < |users| && users[i] == User(identity, osUser)
  }

  lemma PutRow(m: map<string, string>, u: User)
    requires Proper(u)
    ensures Put(m, RowText(u)) == m[u.identity := u.osUser]
  {
    ProperRow(u);
    Trims(RowText(u));
    Trims(u.identity);
    Trims(u.osUser);
  }

  lemma {:induction false} MapOfRows(users: seq<User>, m: map<string, string>, id: string)
    requires AllProper(users)
    ensures var r := MapOf(RowLines(users), m);
      && (id in r <==> id in m || exists i :: 0 <= i < |users| && users[i].identity == id)
      && (forall i :: 0 <= i < |users| && users[i].identity == id ==> r[id] == users[i].osUser)
      && ((forall i :: 0 <= i < |users| ==> users[i].identity != id) && id in m ==> r[id] == m[id])
  {
    if users == [] {
      assert MapOf([""], m) == MapOf([], Put(m, ""));
    } else {
      var u, rest := users[0], users[1..];
      assert users == [u] + rest;
      PutRow(m, u);
      MapOfRows(rest, m[u.identity := u.osUser], id);
      assert forall i :: 0 <= i < |rest| ==> rest[i] == users[i + 1];
      assert forall i :: 0 < i < |users| ==> users[i] == rest[i - 1];
    }
  }

  /** What the services read out of the rendered map is exactly the declared
      pairs: every identity its own account, and no one else. */
  lemma MapRoundTrip(users: seq<User>, id: string)
    requires AllProper(users)
    ensures var m := MapOf(Lines(Rendered(users)), map[]);
      && (id in m ==> HasPair(users, id, m[id]))
      && (forall i :: 0 <= i < |users| && users[i].identity == id ==> id in m && m[id] == users[i].osUser)
  {
    MapOfRendered(users);
    MapOfRows(users, map[], id);
  }

  lemma MapOfRendered(users: seq<User>)
    requires AllProper(users)
    ensures MapOf(Lines(Rendered(users)), map[]) == MapOf(RowLines(users), map[])
  {
    Headers();
    RenderedLines(users);
  }

  // ---------- the wrappers' reader ----------

  /** The account on a line: what is right of the first equals sign, before any
      hash sign of the whole line. */
  function AccountOn(raw: string): seq<string> {
    var line := raw[..Index(raw, '#')];
    var i := Index(line, '=');
    if i == |line| then [] else
    var all := TrimSpace(line[i + 1..]);
    var j := Index(all, ':');
    var osUser := if j < |all| then TrimSpace(all[..j]) else all;
    if osUser == "" then [] else [osUser]
  }

  function AccountsOn(lines: seq<string>): seq<string> {
    if lines == [] then [] else AccountsOn(lines[..|lines| - 1]) + AccountOn(lines[|lines| - 1])
  }

  method OSUsersInMap(text: string) returns (out: seq<string>)
    ensures out == AccountsOn(Lines(text))
  {
    out := OSUsersOnLines(Lines(text));
  }

  method OSUsersOnLines(lines: seq<string>) returns (out: seq<string>)
    ensures out == AccountsOn(lines)
  {
    out := [];
    for k := 0 to |lines|
      invariant out == AccountsOn(lines[..k])
    {
      assert lines[..k + 1][..k] == lines[..k];
      var osUser := OnLine(lines[k]);
      if osUser != "" { out := out + [osUser]; }
    }
    assert lines[..|lines|] == lines;
  }

  lemma {:induction false} AccountsAfter(line: string, rest: seq<string>)
    ensures AccountsOn([line] + rest) == AccountOn(line) + AccountsOn(rest)
  {
    hide AccountOn;
    var all := [line] + rest;
    if rest == [] {
      assert all[..0] == [] && AccountsOn(all[..0]) == [];
    } else {
      var n := |rest| - 1;
      assert all[..n + 1] == [line] + rest[..n];
      AccountsAfter(line, rest[..n]);
    }
  }

  /** The account of one line, empty when it has none. */
  method OnLine(raw: string) returns (osUser: string)
    ensures AccountOn(raw) == if osUser == "" then [] else [osUser]
  {
    hide TrimSpace;
    var line := raw;
    var h := Index(line, '#');
    if h < |line| { line := line[..h]; }
    assert line == raw[..h];
    var i := Index(line, '=');
    if i == |line| { return ""; }
    osUser := TrimSpace(line[i + 1..]);
    var j := Index(osUser, ':');
    if j < |osUser| { osUser := TrimSpace(osUser[..j]); }
  }

  /** The accounts of these users, leaving out identities with a hash sign. */
  function Visible(users: seq<User>): seq<string> {
    if users == [] then []
    else (if '#' in users[0].identity then [] else [users[0].osUser]) + Visible(users[1..])
  }

  function Accounts(users: seq<User>): (r: seq<string>)
    ensures |r| == |users| && forall i :: 0 <= i < |users| ==> r[i] == users[i].osUser
  {
    if users == [] then [] else [users[0].osUser] + Accounts(users[1..])
  }

  lemma RowAccount(u: User)
    requires Proper(u)
    ensures AccountOn(RowText(u)) == if '#' in u.identity then [] else [u.osUser]
  {
    ProperRow(u);
    Trims(u.osUser);
    var t := RowText(u);
    var h := Index(t, '#');
    if '#' in u.identity {
      var k := Index(u.identity, '#');
      assert t[k] == '#';
      assert forall j :: 0 <= j < h ==> t[..h][j] == t[j];
      assert forall c :: c in t[..h] ==> c in u.identity;
    } else {
      assert '#' !in t;
      assert t[..h] == t;
    }
  }

  lemma {:induction false} RowAccounts(users: seq<User>)
    requires AllProper(users)
    ensures AccountsOn(RowLines(users)) == Visible(users)
  {
    if users == [] {
      assert [""][..0] == [] && AccountsOn([""][..0]) == [];
    } else {
      RowAccount(users[0]);
      RowAccounts(users[1..]);
      AccountsAfter(RowText(users[0]), RowLines(users[1..]));
    }
  }

  /** What the wrappers read out of the rendered map is the declared accounts, in
      order, of exactly the identities without a hash sign. */
  lemma RenderedAccounts(users: seq<User>)
    requires AllProper(users)
    ensures AccountsOn(Lines(Rendered(users))) == Visible(users)
  {
    Headers();
    RenderedLines(users);
    RowAccounts(users);
    CommentHasNone(COMMENT, [LEGEND] + RowLines(users));
    CommentHasNone(LEGEND, RowLines(users));
  }

  lemma CommentHasNone(line: string, rest: seq<string>)
    requires line != "" && line[0] == '#'
    ensures AccountsOn([line] + rest) == AccountsOn(rest)
  {
    assert Index(line, '#') == 0;
    AccountsAfter(line, rest);
  }

  /** The wrappers' reader gets all the accounts if and only if no identity has a
      hash sign. */
  lemma {:induction false} AllVisible(users: seq<User>)
    ensures |Visible(users)| <= |users|
    ensures Visible(users) == Accounts(users) <==> forall i :: 0 <= i < |users| ==> '#' !in users[i].identity
  {
    if users != [] {
      AllVisible(users[1..]);
      assert forall i :: 0 < i < |users| ==> users[i] == users[1..][i - 1];
      assert forall i :: 0 <= i < |users| - 1 ==> users[1..][i] == users[i + 1];
      if '#' in users[0].identity {
        assert |Visible(users)| < |Accounts(users)|;
      } else {
        assert Visible(users)[1..] == Visible(users[1..]) && Accounts(users)[1..] == Accounts(users[1..]);
      }
    }
  }

  /** A declared identity with a hash sign: its account is in the services' map
      and missing from the wrappers' list. */
  lemma HashHidesAccount()
    ensures var u := User("a#b", "x");
      && AllProper([u]) && Visible([u]) == [] && AccountsOn(Lines(Rendered([u]))) == []
      && MapOf(Lines(Rendered([u])), map[]) == map["a#b" := "x"]
  {
    var u := User("a#b", "x");
    assert [u][1..] == [] && u.identity[1] == '#';
    RenderedAccounts([u]);
    MapOfRendered([u]);
    MapOfOne(u);
  }

  lemma MapOfOne(u: User)
    requires Proper(u)
    ensures MapOf(RowLines([u]), map[]) == map[u.identity := u.osUser]
  {
    var m := map[u.identity := u.osUser];
    PutRow(map[], u);
    assert RowLines([u]) == [RowText(u), ""] && [RowText(u), ""][1..] == [""];
    assert MapOf([""], m) == MapOf([], Put(m, ""));
  }

  // ---------- who was dropped ----------

  predicate NoRepeats(s: seq<string>) {
    forall i, j :: 0 <= i < j < |s| ==> s[i] != s[j]
  }

  /** DroppedOSUsers: each account the previous map gave and the declaration does
      not keep, once, in order. */
  method DroppedOSUsers(previous: string, users: seq<User>) returns (out: seq<string>)
    ensures SortedTexts(out) && NoRepeats(out)
    ensures forall a :: a in out <==> a in AccountsOn(Lines(previous)) && a !in Accounts(users)
  {
    var keeping := Keeping(users);
    var was := OSUsersInMap(previous);
    var list := Dropping(was, keeping);
    SortTextsSorts(list);
    out := SortTexts(list);
    SamePlaces(list, out);
  }

  method Keeping(users: seq<User>) returns (keeping: set<string>)
    ensures forall a :: a in keeping <==> a in Accounts(users)
  {
    keeping := {};
    for i := 0 to |users|
      invariant forall a :: a in keeping <==> a in Accounts(users)[..i]
    {
      assert Accounts(users)[..i + 1] == Accounts(users)[..i] + [users[i].osUser];
      keeping := keeping + {users[i].osUser};
    }
    assert Accounts(users)[..|users|] == Accounts(users);
  }

  method Dropping(was: seq<string>, keeping: set<string>) returns (list: seq<string>)
    ensures NoRepeats(list) && forall a :: a in list <==> a in was && a !in keeping
  {
    var seen: set<string> := {};
    list := [];
    for i := 0 to |was|
      invariant NoRepeats(list) && forall a :: a in list <==> a in seen
      invariant forall a :: a in seen <==> a in was[..i] && a !in keeping
    {
      assert was[..i + 1] == was[..i] + [was[i]];
      if was[i] in keeping || was[i] in seen { continue; }
      seen := seen + {was[i]};
      list := list + [was[i]];
    }
    assert was[..|was|] == was;
  }

  lemma {:induction false} OnceEach(s: seq<string>)
    ensures NoRepeats(s) <==> forall x :: multiset(s)[x] <= 1
  {
    if s != [] {
      var n := |s| - 1;
      var t := s[..n];
      OnceEach(t);
      assert s == t + [s[n]];
      assert multiset(s) == multiset(t) + multiset{s[n]};
      assert s[n] in t <==> multiset(t)[s[n]] > 0;
      assert multiset(s)[s[n]] == multiset(t)[s[n]] + 1;
      assert forall x :: multiset(t)[x] <= multiset(s)[x];
    }
  }

  lemma SamePlaces(a: seq<string>, b: seq<string>)
    requires multiset(a) == multiset(b)
    ensures NoRepeats(a) <==> NoRepeats(b)
    ensures forall x :: x in a <==> x in b
  {
    OnceEach(a);
    OnceEach(b);
    forall x: string ensures x in a <==> x in b { assert x in a <==> x in multiset(a); }
  }

  lemma {:induction false} VisibleIs(users: seq<User>, a: string)
    ensures a in Visible(users) <==> exists i :: 0 <= i < |users| && users[i].osUser == a && '#' !in users[i].identity
  {
    if users != [] {
      var rest := users[1..];
      VisibleIs(rest, a);
      assert forall i :: 0 <= i < |rest| ==> rest[i] == users[i + 1];
      assert forall i :: 0 < i < |users| ==> users[i] == rest[i - 1];
    }
  }

  /** Against a map rendered from an earlier declaration, an account is reported
      dropped exactly when it is not declared now and the identity it was declared
      under had no hash sign. */
  lemma DroppedSinceRender(before: seq<User>, users: seq<User>, out: seq<string>, a: string)
    requires AllProper(before)
    requires forall x :: x in out <==> x in AccountsOn(Lines(Rendered(before))) && x !in Accounts(users)
    ensures a in out <==>
      && a !in Accounts(users)
      && exists i :: 0 <= i < |before| && before[i].osUser == a && '#' !in before[i].identity
  {
    RenderedAccounts(before);
    VisibleIs(before, a);
  }

  /** Every account declared then and not now is among those reported. */
  ghost predicate AllReported(before: seq<User>, users: seq<User>, out: seq<string>) {
    forall i :: 0 <= i < |before| && before[i].osUser !in Accounts(users) ==> before[i].osUser in out
  }

  /** So the report is the whole difference exactly when every account declared
      under an identity with a hash sign is still declared. */
  lemma DroppedIsWhole(before: seq<User>, users: seq<User>, out: seq<string>)
    requires AllProper(before)
    requires forall x :: x in out <==> x in AccountsOn(Lines(Rendered(before))) && x !in Accounts(users)
    ensures AllReported(before, users, out) <==>
      forall i :: 0 <= i < |before| && '#' in before[i].identity ==> before[i].osUser in Accounts(users)
  {
    forall i | 0 <= i < |before| && before[i].osUser !in Accounts(users)
      ensures before[i].osUser in out <==> '#' !in before[i].identity
    {
      DroppedSinceRender(before, users, out, before[i].osUser);
      OneIdentity(before, i);
    }
  }

  /** No two users share an account. */
  lemma {:induction false} OneIdentity(users: seq<User>, i: nat)
    requires AllProper(users) && i < |users|
    ensures forall j :: 0 <= j < |users| && users[j].osUser == users[i].osUser ==> j == i
  {
    var rest := users[1..];
    assert forall j :: 0 < j < |users| ==> users[j] == rest[j - 1];
    if i > 0 {
      assert users[i] == rest[i - 1];
      OneIdentity(rest, i - 1);
    }
  }

  lemma EmptyOrNot(s: seq<string>)
    ensures s == [] || exists x :: x in s
  {
    if s != [] { assert s[0] in s; }
  }

  /** And it can miss one: "a#b" is revoked, and nothing is reported. */
  lemma RevokedUnreported(out: seq<string>)
    requires forall x :: x in out <==> x in AccountsOn(Lines(Rendered([User("a#b", "x")]))) && x !in Accounts([])
    ensures out == [] && !AllReported([User("a#b", "x")], [], out)
  {
    HashHidesAccount();
    EmptyOrNot(out);
    assert [User("a#b", "x")][0].osUser == "x";
  }
}
