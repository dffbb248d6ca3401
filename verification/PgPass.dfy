/** The rendered libpq password file (internal/controller/cardanodbsync/resources.go) against the
    format of 'The Password File', section 34.16 of the PostgreSQL 16 documentation. */
module PgPass {
  import opened Fingerprints
  import opened Text

  // -------------------------------------------------------------------------------------------
  // Rendering

  /** `strings.ReplaceAll` for a one-character pattern. */
  function ReplaceAll(s: string, pattern: char, replacement: string): string {
    if s == "" then "" else (if s[0] == pattern then replacement else [s[0]]) + ReplaceAll(s[1..], pattern, replacement)
  }

  /** `escapePGPassField`: backslashes first, then colons. */
  function EscapeField(value: string): string {
    ReplaceAll(ReplaceAll(value, '\\', "\\\\"), ':', "\\:")
  }

  /** The format's own rule: a backslash before every backslash and colon. */
  function Escape(value: string): string {
    if value == "" then ""
    else if value[0] == '\\' || value[0] == ':' then ['\\', value[0]] + Escape(value[1..])
    else [value[0]] + Escape(value[1..])
  }

  lemma {:induction false} ReplaceAllConcat(s: string, t: string, pattern: char, replacement: string)
    ensures ReplaceAll(s + t, pattern, replacement) ==
            ReplaceAll(s, pattern, replacement) + ReplaceAll(t, pattern, replacement)
  {
    if s == "" {
      assert s + t == t;
    } else {
      assert (s + t)[1..] == s[1..] + t;
      ReplaceAllConcat(s[1..], t, pattern, replacement);
    }
  }

  lemma ReplaceAllOfOne(c: char, pattern: char, replacement: string)
    ensures ReplaceAll([c], pattern, replacement) == if c == pattern then replacement else [c]
  {
    assert ReplaceAll([c][1..], pattern, replacement) == "";
  }

  /** The two chained replacements are one pass: the second leaves the first one's backslashes alone. */
  lemma {:induction false} EscapeFieldIsOnePass(value: string)
    ensures EscapeField(value) == Escape(value)
  {
    if value != "" {
      var c := value[0];
      var once := if c == '\\' then "\\\\" else [c];
      EscapeFieldIsOnePass(value[1..]);
      ReplaceAllConcat(once, ReplaceAll(value[1..], '\\', "\\\\"), ':', "\\:");
      if c == '\\' {
        assert once == ['\\'] + ['\\'];
        ReplaceAllConcat(['\\'], ['\\'], ':', "\\:");
        ReplaceAllOfOne('\\', ':', "\\:");
      } else {
        ReplaceAllOfOne(c, ':', "\\:");
      }
    }
  }

  /** `strings.Join(parts, ":")`. */
  function Join(parts: seq<string>): string {
    if parts == [] then "" else if |parts| == 1 then parts[0] else parts[0] + ":" + Join(parts[1..])
  }

  function EscapeAll(values: seq<string>): (r: seq<string>)
    ensures |r| == |values|
    ensures forall i :: 0 <= i < |values| ==> r[i] == Escape(values[i])
  {
    seq(|values|, i requires 0 <= i < |values| => Escape(values[i]))
  }

  function Render(values: seq<string>): string {
    Join(EscapeAll(values)) + "\n"
  }

  predicate HasNewline(s: string) {
    '\r' in s || '\n' in s
  }

  datatype RenderError = MissingPassword | NewlineIn(field: nat)

  /** `pgPassFile` on the fields host, port, database, user and password: a missing password and the
      first field with a line break are refused, anything else is rendered. */
  method PgPassFile(host: string, port: nat, database: string, user: string, password: string)
    returns (r: Result<string, RenderError>)
    ensures var fields := [host, Itoa(port), database, user, password];
            && (password == "" <==> r == Err(MissingPassword))
            && (password != "" && (forall i :: 0 <= i < 5 ==> !HasNewline(fields[i])) ==> r == Ok(Render(fields)))
            && (password != "" && (exists i :: 0 <= i < 5 && HasNewline(fields[i])) ==>
                  && r.Err? && r.error.NewlineIn? && r.error.field < 5 && HasNewline(fields[r.error.field])
                  && forall i :: 0 <= i < r.error.field ==> !HasNewline(fields[i]))
  {
    if password == "" {
      return Err(MissingPassword);
    }
    var fields := [host, Itoa(port), database, user, password];
    var rendered: seq<string> := [];
    for i := 0 to |fields|
      invariant |rendered| == i
      invariant forall k :: 0 <= k < i ==> !HasNewline(fields[k]) && rendered[k] == Escape(fields[k])
    {
      if HasNewline(fields[i]) {
        return Err(NewlineIn(i));
      }
      EscapeFieldIsOnePass(fields[i]);
      rendered := rendered + [EscapeField(fields[i])];
    }
    assert rendered == EscapeAll(fields);
    return Ok(Join(rendered) + "\n");
  }

  lemma JoinMore(parts: seq<string>)
    requires |parts| > 1
    ensures Join(parts) == parts[0] + ":" + Join(parts[1..])
  {
  }

  /** A rendered line: five escaped fields in this order, colons between them, a line feed at the end. */
  lemma RenderOfFive(host: string, port: string, database: string, user: string, password: string)
    ensures var last := Escape(user) + ":" + Escape(password);
            Render([host, port, database, user, password]) ==
            Escape(host) + ":" + (Escape(port) + ":" + (Escape(database) + ":" + last)) + "\n"
  {
    hide Join, Escape;
    var e := EscapeAll([host, port, database, user, password]);
    JoinMore(e);
    assert e[1..][1..] == e[2..] && e[2..][1..] == e[3..] && e[3..][1..] == e[4..];
    JoinMore(e[1..]);
    JoinMore(e[2..]);
    JoinMore(e[3..]);
    JoinOfOne(e[4..]);
  }

  lemma JoinOfOne(parts: seq<string>)
    requires |parts| == 1
    ensures Join(parts) == parts[0]
  {
  }

  // -------------------------------------------------------------------------------------------
  // Reading it back

  /** The fields of a line: colons separate, a backslash takes the next character literally. */
  function Fields(line: string, field: string): (r: seq<string>)
    ensures |r| >= 1
    decreases |line|
  {
    if line == "" then [field]
    else if line[0] == '\\' && |line| > 1 then Fields(line[2..], field + [line[1]])
    else if line[0] == ':' then [field] + Fields(line[1..], "")
    else Fields(line[1..], field + [line[0]])
  }

  lemma {:induction false} FieldsOfEscaped(value: string, rest: string, field: string)
    ensures Fields(Escape(value) + rest, field) == Fields(rest, field + value)
  {
    var line := Escape(value) + rest;
    if value == "" {
      assert line == rest && field + value == field;
    } else {
      FieldsOfEscaped(value[1..], rest, field + [value[0]]);
      assert field + [value[0]] + value[1..] == field + value;
      if value[0] == '\\' || value[0] == ':' {
        assert line == ['\\', value[0]] + (Escape(value[1..]) + rest);
        assert line[2..] == Escape(value[1..]) + rest;
      } else {
        assert line == [value[0]] + (Escape(value[1..]) + rest);
        assert line[1..] == Escape(value[1..]) + rest;
      }
    }
  }

  /** Splitting a rendered line gives back exactly the values that went in. */
  lemma {:induction false} FieldsOfJoined(values: seq<string>)
    requires values != []
    ensures Fields(Join(EscapeAll(values)), "") == values
  {
    var parts := EscapeAll(values);
    if |values| == 1 {
      FieldsOfEscaped(values[0], "", "");
      assert Escape(values[0]) + "" == Escape(values[0]) == Join(parts);
      assert "" + values[0] == values[0] && values == [values[0]];
    } else {
      var rest := values[1..];
      assert parts[1..] == EscapeAll(rest);
      assert Join(parts) == Escape(values[0]) + (":" + Join(EscapeAll(rest)));
      FieldsOfEscaped(values[0], ":" + Join(EscapeAll(rest)), "");
      assert (":" + Join(EscapeAll(rest)))[1..] == Join(EscapeAll(rest));
      FieldsOfJoined(rest);
      assert "" + values[0] == values[0] && values == [values[0]] + rest;
    }
  }

  /** Equal files come from equal values. */
  lemma RenderInjective(a: seq<string>, b: seq<string>)
    requires a != [] && b != [] && Render(a) == Render(b)
    ensures a == b
  {
    assert Render(a)[..|Render(a)| - 1] == Join(EscapeAll(a));
    assert Render(b)[..|Render(b)| - 1] == Join(EscapeAll(b));
    FieldsOfJoined(a);
    FieldsOfJoined(b);
  }

  predicate Matches(field: string, wanted: string) {
    field == "*" || field == wanted
  }

  /** The password a libpq client finds for a connection: comment lines and blank lines are skipped, the
      first line whose four first fields match decides. */
  function Lookup(file: string, wanted: seq<string>): Option<string>
    requires |wanted| == 4
    decreases |file|
  {
    if file == "" then None
    else
      var line := Line(file);
      var rest := if |line| < |file| then file[|line| + 1..] else "";
      var fields := Fields(line, "");
      if line != "" && line[0] != '#' && |fields| >= 5
         && Matches(fields[0], wanted[0]) && Matches(fields[1], wanted[1])
         && Matches(fields[2], wanted[2]) && Matches(fields[3], wanted[3])
      then Some(fields[4])
      else Lookup(rest, wanted)
  }

  /** The file up to the first line feed. */
  function Line(file: string): (line: string)
    ensures |line| <= |file| && line == file[..|line|]
    ensures '\n' !in line && (|line| < |file| ==> file[|line|] == '\n')
  {
    if file == "" || file[0] == '\n' then "" else [file[0]] + Line(file[1..])
  }

  lemma {:induction false} EscapeKeepsLines(value: string)
    requires '\n' !in value
    ensures '\n' !in Escape(value)
    ensures (Escape(value) == "" <==> value == "") && (value != "" ==> (Escape(value)[0] == '#' <==> value[0] == '#'))
  {
    if value != "" {
      EscapeKeepsLines(value[1..]);
    }
  }

  lemma {:induction false} JoinKeepsLines(parts: seq<string>)
    requires forall i :: 0 <= i < |parts| ==> '\n' !in parts[i]
    ensures '\n' !in Join(parts)
  {
    if |parts| > 1 {
      JoinKeepsLines(parts[1..]);
    }
  }

  lemma LineOfRendered(values: seq<string>)
    requires values != [] && forall i :: 0 <= i < |values| ==> '\n' !in values[i]
    ensures Line(Render(values)) == Join(EscapeAll(values))
  {
    var parts := EscapeAll(values);
    forall i | 0 <= i < |parts| ensures '\n' !in parts[i] {
      EscapeKeepsLines(values[i]);
    }
    JoinKeepsLines(parts);
    LineEnds(Render(values), |Join(parts)|);
  }

  lemma {:induction false} LineEnds(file: string, n: nat)
    requires n < |file| && file[n] == '\n' && '\n' !in file[..n]
    ensures Line(file) == file[..n]
  {
    if n > 0 {
      assert file[..n] == [file[0]] + file[1..][..n - 1];
      LineEnds(file[1..], n - 1);
    }
  }

  /** A client that connects with the rendered host, port, database and user finds the rendered
      password exactly when the host does not begin with '#': a line beginning so is a comment. */
  lemma ClientFindsPasswordIff(host: string, port: string, database: string, user: string, password: string)
    requires host != ""
    requires forall field :: field in [host, port, database, user, password] ==> '\n' !in field
    ensures Lookup(Render([host, port, database, user, password]), [host, port, database, user]) ==
            if host[0] == '#' then None else Some(password)
  {
    var values := [host, port, database, user, password];
    forall i | 0 <= i < |values| ensures '\n' !in values[i] {
      assert values[i] in values;
    }
    LineOfRendered(values);
    FieldsOfJoined(values);
    EscapeKeepsLines(host);
    var file := Render(values);
    assert EscapeAll(values)[0] == Escape(host);
    assert Line(file)[0] == Escape(host)[0];
    assert file[|Line(file)| + 1..] == "";
  }
}
