/** The three SQL normalisers and the three name tables built with them. Text is a sequence of code
    points; the two byte loops test only for ASCII bytes, which in UTF-8 stand for themselves. */
module SqlNames {

  /** The whitespace that the byte loops collapse. */
  predicate IsBlank(c: char) {
    c == ' ' || c == '\t' || c == '\n' || c == '\r'
  }

  /** unicode.IsSpace, which strings.Fields splits on. */
  predicate IsSpace(c: char) {
    || '\U{0009}' <= c <= '\U{000D}' || c == ' ' || c == '\U{0085}' || c == '\U{00A0}'
    || c == '\U{1680}' || '\U{2000}' <= c <= '\U{200A}' || c == '\U{2028}' || c == '\U{2029}'
    || c == '\U{202F}' || c == '\U{205F}' || c == '\U{3000}'
  }

  /** Whitespace that strings.Fields removes and the byte loops keep. */
  predicate IsExotic(c: char) {
    IsSpace(c) && !IsBlank(c)
  }

  type Separator = p: char -> bool | p(' ') witness IsBlank

  // ---- Tokens -------------------------------------------------------------------------------

  predicate EndsToken(s: string, sep: Separator) {
    s == [] || sep(s[|s| - 1])
  }

  /** strings.Fields for any notion of whitespace. */
  function Fields(s: string, sep: Separator): (fs: seq<string>)
    ensures !EndsToken(s, sep) ==> fs != []
  {
    if s == [] then []
    else
      var front, c := s[..|s| - 1], s[|s| - 1];
      var fs := Fields(front, sep);
      if sep(c) then fs
      else if EndsToken(front, sep) then fs + [[c]]
      else fs[..|fs| - 1] + [fs[|fs| - 1] + [c]]
  }

  /** strings.Join with one space. */
  function Join(fs: seq<string>): string {
    if fs == [] then []
    else if |fs| == 1 then fs[0]
    else Join(fs[..|fs| - 1]) + [' '] + fs[|fs| - 1]
  }

  predicate IsToken(f: string, sep: Separator) {
    f != [] && forall c :: c in f ==> !sep(c)
  }

  predicate AreTokens(fs: seq<string>, sep: Separator) {
    forall i :: 0 <= i < |fs| ==> IsToken(fs[i], sep)
  }

  lemma {:induction false} FieldsAreTokens(s: string, sep: Separator)
    ensures AreTokens(Fields(s, sep), sep)
  {
    if s != [] {
      FieldsAreTokens(s[..|s| - 1], sep);
    }
  }

  lemma JoinGrowsToken(fs: seq<string>, c: char)
    requires fs != []
    ensures Join(fs[..|fs| - 1] + [fs[|fs| - 1] + [c]]) == Join(fs) + [c]
  {
    var more := fs[..|fs| - 1] + [fs[|fs| - 1] + [c]];
    assert more[..|more| - 1] == fs[..|fs| - 1];
  }

  lemma JoinNewToken(fs: seq<string>, f: string)
    ensures Join(fs + [f]) == if fs == [] then f else Join(fs) + [' '] + f
  {
    assert (fs + [f])[..|fs|] == fs;
  }

  // ---- The byte loops -------------------------------------------------------------------------

  /** The loop of both `normalise` functions: the buffer and the `space` flag. */
  function Collapse(s: string): (string, bool) {
    if s == [] then ([], true)
    else
      var (out, space) := Collapse(s[..|s| - 1]);
      var c := s[|s| - 1];
      if !IsBlank(c) then (out + [c], false)
      else if space then (out, true)
      else (out + [' '], true)
  }

  function Trim(s: string): string {
    if s != [] && s[|s| - 1] == ' ' then Trim(s[..|s| - 1]) else s
  }

  function Normal(s: string): string {
    Trim(Collapse(s).0)
  }

  /** trimTrailingSpace. */
  method TrimTrailingSpace(b: string) returns (r: string)
    ensures r == Trim(b)
  {
    r := b;
    while |r| > 0 && r[|r| - 1] == ' '
      invariant Trim(r) == Trim(b)
    {
      r := r[..|r| - 1];
    }
  }

  /** normalise of the query logger: test, continue, then trim by the helper. */
  method LoggingNormalise(sql: string) returns (r: string)
    ensures r == Normal(sql)
  {
    var fields, space, i := [], true, 0;
    while i < |sql|
      invariant 0 <= i <= |sql| && (fields, space) == Collapse(sql[..i])
    {
      var c := sql[i];
      assert sql[..i + 1][..i] == sql[..i];
      i := i + 1;
      if c == ' ' || c == '\t' || c == '\n' || c == '\r' {
        if !space {
          fields := fields + [' '];
          space := true;
        }
        continue;
      }
      fields := fields + [c];
      space := false;
    }
    assert sql[..|sql|] == sql;
    r := TrimTrailingSpace(fields);
  }

  /** normalise of the query tracer: a switch, then trim in place. */
  method TracingNormalise(sql: string) returns (r: string)
    ensures r == Normal(sql)
  {
    r := [];
    var space := true;
    for i := 0 to |sql|
      invariant (r, space) == Collapse(sql[..i])
    {
      assert sql[..i + 1][..i] == sql[..i];
      match sql[i] {
        case ' ' | '\t' | '\n' | '\r' =>
          if !space {
            r := r + [' '];
            space := true;
          }
        case c =>
          r := r + [c];
          space := false;
      }
    }
    assert sql[..|sql|] == sql;
    while |r| > 0 && r[|r| - 1] == ' '
      invariant Trim(r) == Normal(sql)
    {
      r := r[..|r| - 1];
    }
  }

  /** normaliseSQL of the metrics. */
  function NormaliseSQL(sql: string): string {
    Join(Fields(sql, IsSpace))
  }

  /** The buffer is the joined tokens so far, with one space after them when the last byte was blank. */
  lemma {:induction false} CollapseIsJoin(s: string)
    ensures var (out, space) := Collapse(s); var fs := Fields(s, IsBlank);
      && space == EndsToken(s, IsBlank)
      && out == Join(fs) + if space && fs != [] then [' '] else []
  {
    if s != [] {
      var front, c := s[..|s| - 1], s[|s| - 1];
      CollapseIsJoin(front);
      var fs := Fields(front, IsBlank);
      if !IsBlank(c) {
        if EndsToken(front, IsBlank) {
          JoinNewToken(fs, [c]);
        } else {
          JoinGrowsToken(fs, c);
        }
      }
    }
  }

  lemma JoinEndsInToken(fs: seq<string>, sep: Separator)
    requires AreTokens(fs, sep) && fs != []
    ensures Join(fs) != [] && !sep(Join(fs)[|Join(fs)| - 1])
  {
    var last := fs[|fs| - 1];
    assert last[|last| - 1] in last;
    assert Join(fs)[|Join(fs)| - 1] == last[|last| - 1];
  }

  /** Both byte loops compute the join of the tokens between blanks, on every string. */
  lemma NormalIsJoinOfFields(s: string)
    ensures Normal(s) == Join(Fields(s, IsBlank))
  {
    CollapseIsJoin(s);
    FieldsAreTokens(s, IsBlank);
    var fs, out := Fields(s, IsBlank), Collapse(s).0;
    if fs != [] {
      JoinEndsInToken(fs, IsBlank);
      if out != Join(fs) {
        assert out[..|out| - 1] == Join(fs);
      }
    }
  }

  // ---- When the normalisers agree -------------------------------------------------------------------

  lemma {:induction false} SameSeparators(s: string)
    requires forall c :: c in s ==> !IsExotic(c)
    ensures Fields(s, IsBlank) == Fields(s, IsSpace)
  {
    if s != [] {
      var front, c := s[..|s| - 1], s[|s| - 1];
      assert c in s && forall x :: x in front ==> x in s;
      SameSeparators(front);
      assert front != [] ==> front[|front| - 1] in s;
    }
  }

  lemma {:induction false} JoinHasNoSpace(fs: seq<string>, sep: Separator, c: char)
    requires AreTokens(fs, sep) && sep(c) && c != ' '
    ensures c !in Join(fs)
  {
    if |fs| > 1 {
      JoinHasNoSpace(fs[..|fs| - 1], sep, c);
    }
  }

  lemma {:induction false} CollapseKeeps(s: string, c: char)
    requires c in s && !IsBlank(c)
    ensures c in Collapse(s).0
  {
    if c in s[..|s| - 1] {
      CollapseKeeps(s[..|s| - 1], c);
    }
  }

  lemma {:induction false} TrimKeeps(s: string, c: char)
    requires c in s && c != ' '
    ensures c in Trim(s)
  {
    if s[|s| - 1] == ' ' {
      TrimKeeps(s[..|s| - 1], c);
    }
  }

  /** The byte loops and strings.Fields agree on exactly the strings whose only whitespace is space,
      tab, line feed and carriage return. */
  lemma NormalisersAgree(s: string)
    ensures Normal(s) == NormaliseSQL(s) <==> forall c :: c in s ==> !IsExotic(c)
  {
    if forall c :: c in s ==> !IsExotic(c) {
      NormalIsJoinOfFields(s);
      SameSeparators(s);
    } else {
      var c :| c in s && IsExotic(c);
      CollapseKeeps(s, c);
      TrimKeeps(Collapse(s).0, c);
      FieldsAreTokens(s, IsSpace);
      JoinHasNoSpace(Fields(s, IsSpace), IsSpace, c);
    }
  }

  // ---- Tokens are what a normal form means ------------------------------------------------------------

  lemma FieldsOfNextChar(s: string, c: char, sep: Separator)
    requires !sep(c)
    ensures !EndsToken(s + [c], sep)
    ensures Fields(s + [c], sep) ==
      if EndsToken(s, sep) then Fields(s, sep) + [[c]]
      else var fs := Fields(s, sep); fs[..|fs| - 1] + [fs[|fs| - 1] + [c]]
  {
    assert (s + [c])[..|s|] == s;
  }

  /** Appending a token to text that ended at a separator adds that field. */
  lemma {:induction false} FieldsOfToken(s: string, f: string, sep: Separator)
    requires EndsToken(s, sep) && IsToken(f, sep)
    ensures Fields(s + f, sep) == Fields(s, sep) + [f] && !EndsToken(s + f, sep)
    decreases |f|
  {
    var front, c := f[..|f| - 1], f[|f| - 1];
    assert c in f && f == front + [c];
    assert s + f == (s + front) + [c];
    FieldsOfNextChar(s + front, c, sep);
    if front == [] {
      assert s + front == s && f == [c];
    } else {
      FieldsOfToken(s, front, sep);
    }
  }

  /** Splitting undoes joining. */
  lemma {:induction false} FieldsOfJoin(fs: seq<string>, sep: Separator)
    requires AreTokens(fs, sep)
    ensures Fields(Join(fs), sep) == fs
  {
    if |fs| == 1 {
      FieldsOfToken([], fs[0], sep);
      assert [] + fs[0] == fs[0];
    } else if |fs| > 1 {
      var front, f := fs[..|fs| - 1], fs[|fs| - 1];
      FieldsOfJoin(front, sep);
      var s := Join(front) + [' '];
      assert s[..|s| - 1] == Join(front);
      FieldsOfToken(s, f, sep);
      assert front + [f] == fs;
    }
  }

  lemma TwoFields(a: string, b: string, c: char, sep: Separator)
    requires IsToken(a, sep) && IsToken(b, sep)
    ensures Fields(a + [c] + b, sep) == if sep(c) then [a, b] else [a + [c] + b]
  {
    FieldsOfToken([], a, sep);
    assert [] + a == a;
    assert (a + [c])[..|a|] == a;
    if sep(c) {
      FieldsOfToken(a + [c], b, sep);
    } else {
      FieldsOfToken([], a + [c] + b, sep);
      assert [] + (a + [c] + b) == a + [c] + b;
    }
  }

  lemma JoinOfOneOrTwo(a: string, b: string)
    ensures Join([a, b]) == a + [' '] + b && Join([a]) == a
  {
    assert [a, b][..1] == [a];
  }

  lemma OneCharApart(a: string, b: string, c: char)
    ensures a + [c] + b == a + [' '] + b <==> c == ' '
  {
    assert (a + [c] + b)[|a|] == c && (a + [' '] + b)[|a|] == ' ';
  }

  lemma SeparatesIff(a: string, b: string, c: char, sep: Separator)
    requires IsToken(a, sep) && IsToken(b, sep)
    ensures Join(Fields(a + [c] + b, sep)) == a + [' '] + b <==> sep(c)
  {
    TwoFields(a, b, c, sep);
    JoinOfOneOrTwo(a, b);
    JoinOfOneOrTwo(a + [c] + b, b);
    OneCharApart(a, b, c);
  }

  /** What separates two tokens in the byte loops: space, tab, line feed and carriage return, each of
      which becomes one space, and nothing else. */
  lemma BlanksAre(a: string, b: string, c: char)
    requires IsToken(a, IsBlank) && IsToken(b, IsBlank)
    ensures Normal(a + [c] + b) == a + [' '] + b <==> c in [' ', '\t', '\n', '\r']
  {
    NormalIsJoinOfFields(a + [c] + b);
    SeparatesIff(a, b, c, IsBlank);
  }

  /** The 25 code points with the White_Space property in Unicode. */
  const WHITE_SPACE: seq<char> := [
    '\U{0009}', '\U{000A}', '\U{000B}', '\U{000C}', '\U{000D}', '\U{0020}', '\U{0085}', '\U{00A0}',
    '\U{1680}', '\U{2000}', '\U{2001}', '\U{2002}', '\U{2003}', '\U{2004}', '\U{2005}', '\U{2006}',
    '\U{2007}', '\U{2008}', '\U{2009}', '\U{200A}', '\U{2028}', '\U{2029}', '\U{202F}', '\U{205F}',
    '\U{3000}']

  lemma SpacesAreListed(c: char)
    ensures IsSpace(c) <==> c in WHITE_SPACE
  {
  }

  /** What separates two tokens in the metrics: exactly the white space of Unicode. */
  lemma SpacesAre(a: string, b: string, c: char)
    requires IsToken(a, IsSpace) && IsToken(b, IsSpace)
    ensures NormaliseSQL(a + [c] + b) == a + [' '] + b <==> c in WHITE_SPACE
  {
    SpacesAreListed(c);
    SeparatesIff(a, b, c, IsSpace);
  }

  /** Two texts have one normal form exactly when they have the same tokens. */
  lemma SameFormIffSameTokens(s: string, t: string)
    ensures Normal(s) == Normal(t) <==> Fields(s, IsBlank) == Fields(t, IsBlank)
    ensures NormaliseSQL(s) == NormaliseSQL(t) <==> Fields(s, IsSpace) == Fields(t, IsSpace)
  {
    NormalIsJoinOfFields(s);
    NormalIsJoinOfFields(t);
    FieldsAreTokens(s, IsBlank);
    FieldsAreTokens(t, IsBlank);
    FieldsAreTokens(s, IsSpace);
    FieldsAreTokens(t, IsSpace);
    FieldsOfJoin(Fields(s, IsBlank), IsBlank);
    FieldsOfJoin(Fields(t, IsBlank), IsBlank);
    FieldsOfJoin(Fields(s, IsSpace), IsSpace);
    FieldsOfJoin(Fields(t, IsSpace), IsSpace);
  }

  /** Normalising a normal form changes nothing. */
  lemma NormalisersAreIdempotent(s: string)
    ensures Normal(Normal(s)) == Normal(s) && NormaliseSQL(NormaliseSQL(s)) == NormaliseSQL(s)
  {
    NormalIsJoinOfFields(s);
    NormalIsJoinOfFields(Normal(s));
    FieldsAreTokens(s, IsBlank);
    FieldsAreTokens(s, IsSpace);
    FieldsOfJoin(Fields(s, IsBlank), IsBlank);
    FieldsOfJoin(Fields(s, IsSpace), IsSpace);
  }

  // ---- The name tables ------------------------------------------------------------------------------------

  /** The normaliser a table is built and searched with. */
  datatype Form = ByteLoop | JoinFields

  function Normalise(form: Form, sql: string): string {
    match form
    case ByteLoop => Normal(sql)
    case JoinFields => NormaliseSQL(sql)
  }

  /** The entry for n came from a registered query. */
  ghost predicate ComesFrom(table: map<string, string>, names: map<string, string>, form: Form,
                            n: string, sql: string)
  {
    n in table && sql in names && Normalise(form, sql) == n && table[n] == names[sql]
  }

  /** What a constructor may leave in its table, in whatever order the map is ranged over. */
  ghost predicate IsTable(table: map<string, string>, names: map<string, string>, form: Form) {
    && (forall sql :: sql in names ==> Normalise(form, sql) in table)
    && (forall n :: n in table ==> exists sql :: ComesFrom(table, names, form, n, sql))
  }

  /** The loop of NewQueryLogger, NewQueryTracer and NewDB. */
  method BuildTable(names: map<string, string>, form: Form) returns (table: map<string, string>)
    ensures IsTable(table, names, form)
  {
    table := map[];
    var rest := names.Keys;
    while rest != {}
      invariant rest <= names.Keys
      invariant forall sql :: sql in names && sql !in rest ==> Normalise(form, sql) in table
      invariant forall n :: n in table ==> exists sql :: ComesFrom(table, names, form, n, sql)
      decreases rest
    {
      var sql :| sql in rest;
      ghost var before := table;
      table := table[Normalise(form, sql) := names[sql]];
      rest := rest - {sql};
      forall n | n in table
        ensures exists x :: ComesFrom(table, names, form, n, x)
      {
        if n == Normalise(form, sql) {
          assert ComesFrom(table, names, form, n, sql);
        } else {
          var x :| ComesFrom(before, names, form, n, x);
          assert ComesFrom(table, names, form, n, x);
        }
      }
    }
  }

  /** The lookup of TraceQueryStart and queryName. */
  function NameOf(table: map<string, string>, form: Form, sql: string): string {
    var key := Normalise(form, sql);
    if key in table then table[key] else "other"
  }

  predicate Plain(s: string) {
    forall c :: c in s ==> !IsExotic(c)
  }

  /** The keys of QueryNames: plain whitespace only, and no two with the same tokens. */
  ghost predicate Registry(names: map<string, string>) {
    && (forall k :: k in names ==> Plain(k))
    && (forall j, k :: j in names && k in names && Fields(j, IsBlank) == Fields(k, IsBlank) ==> j == k)
  }

  /** The query as the table's normaliser reads it. */
  function Tokens(form: Form, sql: string): seq<string> {
    match form
    case ByteLoop => Fields(sql, IsBlank)
    case JoinFields => Fields(sql, IsSpace)
  }

  lemma FormsFollowTokens(form: Form, s: string, t: string)
    ensures Normalise(form, s) == Normalise(form, t) <==> Tokens(form, s) == Tokens(form, t)
  {
    SameFormIffSameTokens(s, t);
  }

  lemma RegisteredOnce(names: map<string, string>, form: Form, j: string, k: string)
    requires Registry(names) && j in names && k in names && Tokens(form, j) == Tokens(form, k)
    ensures j == k
  {
    SameSeparators(j);
    SameSeparators(k);
  }

  /** Any reformatting of a registered query gets the registered name. */
  lemma RegisteredName(names: map<string, string>, table: map<string, string>, form: Form,
                       sql: string, k: string)
    requires Registry(names) && IsTable(table, names, form)
    ensures k in names && Tokens(form, k) == Tokens(form, sql) ==> NameOf(table, form, sql) == names[k]
  {
    if k in names && Tokens(form, k) == Tokens(form, sql) {
      FormsFollowTokens(form, k, sql);
      var x :| ComesFrom(table, names, form, Normalise(form, sql), x);
      FormsFollowTokens(form, x, sql);
      RegisteredOnce(names, form, x, k);
    }
  }

  /** Everything else is called "other". */
  lemma UnregisteredName(names: map<string, string>, table: map<string, string>, form: Form, sql: string)
    requires IsTable(table, names, form)
    requires forall k :: k in names ==> Tokens(form, k) != Tokens(form, sql)
    ensures NameOf(table, form, sql) == "other"
  {
    if Normalise(form, sql) in table {
      var x :| ComesFrom(table, names, form, Normalise(form, sql), x);
      FormsFollowTokens(form, x, sql);
    }
  }

  // ---- The three pillars ----------------------------------------------------------------------

  /** Two tables built with one normaliser give every text the same name. */
  lemma SameNormaliserAgrees(names: map<string, string>, a: map<string, string>, b: map<string, string>,
                             form: Form, sql: string)
    requires Registry(names) && IsTable(a, names, form) && IsTable(b, names, form)
    ensures NameOf(a, form, sql) == NameOf(b, form, sql)
  {
    if k :| k in names && Tokens(form, k) == Tokens(form, sql) {
      RegisteredName(names, a, form, sql, k);
      RegisteredName(names, b, form, sql, k);
    } else {
      UnregisteredName(names, a, form, sql);
      UnregisteredName(names, b, form, sql);
    }
  }

  /** Only a plain text has the byte-loop tokens of a plain text. */
  lemma ExoticTokens(k: string, sql: string)
    requires Plain(k) && !Plain(sql)
    ensures Tokens(ByteLoop, k) != Tokens(ByteLoop, sql)
  {
    var c :| c in sql && IsExotic(c);
    CollapseKeeps(sql, c);
    TrimKeeps(Collapse(sql).0, c);
    SameFormIffSameTokens(k, sql);
    NormalisersAgree(k);
    FieldsAreTokens(k, IsSpace);
    JoinHasNoSpace(Fields(k, IsSpace), IsSpace, c);
  }

  lemma ExoticIsOther(names: map<string, string>, logging: map<string, string>, sql: string)
    requires Registry(names) && IsTable(logging, names, ByteLoop) && !Plain(sql)
    ensures NameOf(logging, ByteLoop, sql) == "other"
  {
    forall k | k in names
      ensures Tokens(ByteLoop, k) != Tokens(ByteLoop, sql)
    {
      ExoticTokens(k, sql);
    }
    UnregisteredName(names, logging, ByteLoop, sql);
  }

  /** The metrics know the text under a name of its own. */
  ghost predicate Reformats(names: map<string, string>, sql: string, k: string) {
    k in names && names[k] != "other" && Tokens(JoinFields, k) == Tokens(JoinFields, sql)
  }

  lemma PlainNamesAgree(names: map<string, string>, logging: map<string, string>,
                        metrics: map<string, string>, sql: string)
    requires Registry(names) && Plain(sql)
    requires IsTable(logging, names, ByteLoop) && IsTable(metrics, names, JoinFields)
    ensures NameOf(logging, ByteLoop, sql) == NameOf(metrics, JoinFields, sql)
  {
    SameSeparators(sql);
    forall k | k in names
      ensures Tokens(ByteLoop, k) == Tokens(JoinFields, k)
    {
      SameSeparators(k);
    }
    if k :| k in names && Tokens(ByteLoop, k) == Tokens(ByteLoop, sql) {
      RegisteredName(names, logging, ByteLoop, sql, k);
      RegisteredName(names, metrics, JoinFields, sql, k);
    } else {
      UnregisteredName(names, logging, ByteLoop, sql);
      UnregisteredName(names, metrics, JoinFields, sql);
    }
  }

  /** A log line and a span always give a query the same name. A metric sample gives it that name too,
      except exactly when the text holds exotic whitespace and is otherwise a registered query: the
      metrics then know it and the other two call it "other". */
  lemma TracersAgree(names: map<string, string>, logging: map<string, string>,
                     tracing: map<string, string>, metrics: map<string, string>, sql: string)
    requires Registry(names)
    requires IsTable(logging, names, ByteLoop) && IsTable(tracing, names, ByteLoop)
    requires IsTable(metrics, names, JoinFields)
    ensures NameOf(logging, ByteLoop, sql) == NameOf(tracing, ByteLoop, sql)
    ensures NameOf(logging, ByteLoop, sql) == NameOf(metrics, JoinFields, sql)
            <==> Plain(sql) || !exists k :: Reformats(names, sql, k)
  {
    SameNormaliserAgrees(names, logging, tracing, ByteLoop, sql);
    if Plain(sql) {
      PlainNamesAgree(names, logging, metrics, sql);
    } else {
      ExoticIsOther(names, logging, sql);
      if k :| k in names && Tokens(JoinFields, k) == Tokens(JoinFields, sql) {
        RegisteredName(names, metrics, JoinFields, sql, k);
        assert names[k] != "other" ==> Reformats(names, sql, k);
        assert forall j :: Reformats(names, sql, j) ==> NameOf(metrics, JoinFields, sql) == names[j] by {
          forall j | Reformats(names, sql, j)
            ensures NameOf(metrics, JoinFields, sql) == names[j]
          {
            RegisteredName(names, metrics, JoinFields, sql, j);
          }
        }
      } else {
        UnregisteredName(names, metrics, JoinFields, sql);
      }
    }
  }

  /** Which separator stands between two tokens does not matter. */
  lemma {:induction false} FieldsIgnoreSpelling(s: string, sep: Separator, i: nat, c: char)
    requires i < |s| && sep(s[i]) && sep(c)
    ensures Fields(s[i := c], sep) == Fields(s, sep)
  {
    var n := |s| - 1;
    if i == n {
      assert s[i := c][..n] == s[..n];
    } else {
      FieldsIgnoreSpelling(s[..n], sep, i, c);
      assert s[i := c][..n] == s[..n][i := c];
    }
  }

  function Respell(k: string, i: nat): string
    requires i < |k|
  {
    k[i := '\U{00A0}']
  }

  lemma RespellKeepsTokens(k: string, i: nat)
    requires i < |k| && k[i] == ' '
    ensures !Plain(Respell(k, i)) && Tokens(JoinFields, Respell(k, i)) == Tokens(JoinFields, k)
  {
    assert Respell(k, i)[i] in Respell(k, i);
    FieldsIgnoreSpelling(k, IsSpace, i, '\U{00A0}');
  }

  /** The pillars part on every registered query with a space in it: write the space as U+00A0, and the
      metrics still name the query while the logs and the spans do not. */
  lemma NoBreakSpaceParts(names: map<string, string>, logging: map<string, string>,
                          metrics: map<string, string>, k: string, i: nat)
    requires Registry(names) && k in names && i < |k| && k[i] == ' '
    requires IsTable(logging, names, ByteLoop) && IsTable(metrics, names, JoinFields)
    ensures NameOf(metrics, JoinFields, Respell(k, i)) == names[k]
    ensures NameOf(logging, ByteLoop, Respell(k, i)) == "other"
  {
    RespellKeepsTokens(k, i);
    RegisteredName(names, metrics, JoinFields, Respell(k, i), k);
    ExoticIsOther(names, logging, Respell(k, i));
  }
}
