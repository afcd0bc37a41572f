/**
 * One normalised action reference, as `process_action` builds it from a
 * `uses` string and the job or step configuration around it: the name/version
 * split, the commit-pin test, the first-party test and the secrets the
 * configuration mentions (`extract_secrets`).
 */
module References {
  import opened Wrappers
  import opened Text
  import opened YamlValue
  import opened Ranking

  /** The fields of a job or step mapping. */
  type Fields = seq<(string, Value)>

  /** The record appended to the inventory for one invocation site. */
  datatype Reference = Reference(
    repository: string,
    workflowFile: string,
    workflowPath: string,
    jobName: string,
    stepName: Value,          // "job-level", the step's `name` node, or "step-<n>"
    actionName: string,
    actionVersion: string,
    fullReference: string,
    isPinned: bool,
    hasSecrets: bool,
    requiredSecrets: seq<string>,
    isThirdParty: bool,
    withParams: Value)

  const Unspecified := "unspecified"

  // ---- name and version

  /**
   * `parts = ref.split('@')`: the name is the text before the first `@`, the
   * version the text between the first and the second `@` (or to the end),
   * and "unspecified" when there is no `@` at all.
   */
  function SplitReference(ref: string): (nv: (string, string))
    ensures '@' !in ref ==> nv == (ref, Unspecified)
    ensures '@' in ref ==>
      && '@' !in nv.0 && '@' !in nv.1
      && (ref == nv.0 + "@" + nv.1 || StartsWith(ref, nv.0 + "@" + nv.1 + "@"))
  {
    var parts := Split(ref, '@');
    if |parts| == 1 then (parts[0], Unspecified)
    else
      assert ref == parts[0] + "@" + Join(parts[1..], '@');
      assert |parts| > 2 ==> ref == (parts[0] + "@" + parts[1] + "@") + Join(parts[2..], '@');
      (parts[0], parts[1])
  }

  // ---- commit pinning

  /** A full commit hash: exactly forty characters, each in `[0-9a-f]`. */
  predicate IsPinned(version: string)
  {
    |version| == 40 && forall k | 0 <= k < |version| :: IsLowerHex(version[k])
  }

  /**
   * What `re.match(r'^[0-9a-f]{40}$', version)` accepts as written: `$` also
   * matches just before a newline that ends the string.
   */
  predicate IsPinnedAsWritten(version: string)
  {
    IsPinned(version) || (|version| == 41 && version[40] == '\n' && IsPinned(version[..40]))
  }

  const SampleHash := "a81bbbf8298c0fa03ea29cdc473d45769f953675"

  /** A full lower-case hash is a pin. */
  lemma PinnedExample()
    ensures IsPinned(SampleHash)
  {
  }

  /** Tags, short hashes and upper-case hashes are not pins. */
  lemma UnpinnedExamples()
    ensures !IsPinned("v4")
    ensures !IsPinned(SampleHash[..39])
    ensures !IsPinned("A81BBBF8298C0FA03EA29CDC473D45769F953675")
  {
    assert !IsLowerHex("A81BBBF8298C0FA03EA29CDC473D45769F953675"[0]);
  }

  /** The pattern as written lets a hash followed by a newline through. */
  lemma TrailingNewlineCountsAsPinned()
    ensures IsPinnedAsWritten(SampleHash + "\n")
    ensures !IsPinned(SampleHash + "\n")
  {
    assert (SampleHash + "\n")[..40] == SampleHash;
    PinnedExample();
  }

  /**
   * The two pin tests disagree only on a 41-character version made of a pin
   * and a final newline; everywhere else the records carry what line 132
   * computes.
   */
  lemma PinTestsDifferOnlyOnNewline(version: string)
    ensures IsPinnedAsWritten(version) != IsPinned(version) <==>
      |version| == 41 && version[40] == '\n' && IsPinned(version[..40])
  {
  }

  /** First-party actions live under the `actions/` or `github/` namespace. */
  predicate IsFirstParty(name: string)
  {
    StartsWith(name, "actions/") || StartsWith(name, "github/")
  }

  // ---- the secret expression `\$\{\{\s*secrets\.([A-Za-z0-9_-]+)\s*\}\}`

  predicate IsSecretName(name: string)
  {
    |name| > 0 && forall k | 0 <= k < |name| :: IsIdentChar(name[k])
  }

  /** The end of the run of whitespace that starts at `i`. */
  function SkipSpace(s: string, i: nat): (j: nat)
    requires i <= |s|
    ensures i <= j <= |s| && (j == |s| || !IsSpace(s[j]))
    ensures forall k | i <= k < j :: IsSpace(s[k])
    decreases |s| - i
  {
    if i < |s| && IsSpace(s[i]) then SkipSpace(s, i + 1) else i
  }

  /** A run of whitespace from `i` to a non-whitespace character (or the end) at `j` is skipped whole. */
  lemma {:induction false} SkipSpaceRun(s: string, i: nat, j: nat)
    requires i <= j <= |s|
    requires forall k | i <= k < j :: IsSpace(s[k])
    requires j == |s| || !IsSpace(s[j])
    ensures SkipSpace(s, i) == j
    decreases j - i
  {
    if i < j {
      SkipSpaceRun(s, i + 1, j);
    }
  }

  /** The end of the run of identifier characters that starts at `i`. */
  function SkipIdent(s: string, i: nat): (j: nat)
    requires i <= |s|
    ensures i <= j <= |s| && (j == |s| || !IsIdentChar(s[j]))
    ensures forall k | i <= k < j :: IsIdentChar(s[k])
    decreases |s| - i
  {
    if i < |s| && IsIdentChar(s[i]) then SkipIdent(s, i + 1) else i
  }

  /**
   * The match of the secret expression that starts at `i`, as (captured name,
   * end of match). Each `\s*` and the `+` are greedy, and backing off them can
   * never help: the next character would be whitespace or an identifier
   * character where `s`, `}` or whitespace is required. So the greedy reading
   * below is the only one the regex engine can find.
   */
  function SecretAt(s: string, i: nat): (m: Option<(string, nat)>)
    requires i <= |s|
    ensures m.Some? ==> i < m.value.1 <= |s| && IsSecretName(m.value.0)
    ensures m.Some? ==> OccursAt("${{", s, i) && Occurs("secrets.", s)
  {
    if !OccursAt("${{", s, i) then None
    else
      var a := SkipSpace(s, i + 3);
      if !OccursAt("secrets.", s, a) then None
      else
        var b := a + 8;
        var c := SkipIdent(s, b);
        if c == b then None
        else
          var d := SkipSpace(s, c);
          if !OccursAt("}}", s, d) then None
          else Some((s[b..c], d + 2))
  }

  /** `re.findall` of the secret expression from index `i`: left to right, non-overlapping. */
  function FindSecretsFrom(s: string, i: nat): (names: seq<string>)
    requires i <= |s|
    ensures forall k | 0 <= k < |names| :: IsSecretName(names[k])
    decreases |s| - i
  {
    if i == |s| then []
    else
      match SecretAt(s, i)
      case Some((name, end)) => [name] + FindSecretsFrom(s, end)
      case None => FindSecretsFrom(s, i + 1)
  }

  function FindSecrets(s: string): seq<string>
  {
    FindSecretsFrom(s, 0)
  }

  lemma {:induction false} FoundSecretNeedsMarkers(s: string, i: nat)
    requires i <= |s|
    requires FindSecretsFrom(s, i) != []
    ensures Occurs("${{", s) && Occurs("secrets.", s)
    decreases |s| - i
  {
    if i < |s| {
      match SecretAt(s, i)
      case Some(_) =>
        var j := i;
        assert OccursAt("${{", s, j);
      case None =>
        FoundSecretNeedsMarkers(s, i + 1);
    }
  }

  /**
   * The pre-test `"${{" in value and "secrets." in value` never hides a match:
   * a value without both markers has no secret expression.
   */
  lemma SecretMarkersPrecheckIsExact(s: string)
    ensures !(Occurs("${{", s) && Occurs("secrets.", s)) ==> FindSecrets(s) == []
  {
    if FindSecrets(s) != [] {
      FoundSecretNeedsMarkers(s, 0);
    }
  }

  /** A run of identifier characters from `i` to a non-identifier character (or the end) at `j` is skipped whole. */
  lemma {:induction false} SkipIdentRun(s: string, i: nat, j: nat)
    requires i <= j <= |s|
    requires forall k | i <= k < j :: IsIdentChar(s[k])
    requires j == |s| || !IsIdentChar(s[j])
    ensures SkipIdent(s, i) == j
    decreases j - i
  {
    if i < j {
      SkipIdentRun(s, i + 1, j);
    }
  }

  // ---- what the pattern matches, stated independently of the scan

  predicate Spaces(w: string)
  {
    forall k | 0 <= k < |w| :: IsSpace(w[k])
  }

  /** The text `${{` w1 `secrets.` name w2 `}}`. */
  function ExpressionText(w1: string, name: string, w2: string): string
  {
    "${{" + w1 + "secrets." + name + w2 + "}}"
  }

  /** `s[i..e]` is one secret expression naming `name`, with whitespace runs inside the braces. */
  ghost predicate ExpressionAt(s: string, i: nat, e: nat, name: string)
  {
    && i <= e <= |s| && IsSecretName(name)
    && exists w1, w2 | Spaces(w1) && Spaces(w2) :: s[i..e] == ExpressionText(w1, name, w2)
  }

  lemma SliceSplit(s: string, i: nat, j: nat, k: nat)
    requires i <= j <= k <= |s|
    ensures s[i..k] == s[i..j] + s[j..k]
  {
  }

  /** A slice that reads `p + q` reads `p`, then `q`. */
  lemma SliceOfConcat(s: string, i: nat, e: nat, p: string, q: string)
    requires i <= e <= |s| && s[i..e] == p + q
    ensures s[i..i + |p|] == p && s[i + |p|..e] == q
  {
    assert s[i..i + |p|] == s[i..e][..|p|];
    assert s[i + |p|..e] == s[i..e][|p|..];
  }

  /** Where each part of an expression text sits when `s[i..e]` reads it. */
  lemma ExpressionLayout(s: string, i: nat, e: nat, w1: string, name: string, w2: string)
    requires i <= e <= |s| && s[i..e] == ExpressionText(w1, name, w2)
    ensures var a := i + 3 + |w1|;
      var b := a + 8;
      var c := b + |name|;
      var d := c + |w2|;
      && e == d + 2
      && s[i..i + 3] == "${{" && s[i + 3..a] == w1 && s[a..b] == "secrets."
      && s[b..c] == name && s[c..d] == w2 && s[d..e] == "}}"
  {
    var x1 := "${{" + w1;
    var x2 := x1 + "secrets.";
    var x3 := x2 + name;
    var x4 := x3 + w2;
    SliceOfConcat(s, i, e, x4, "}}");
    SliceOfConcat(s, i, i + |x4|, x3, w2);
    SliceOfConcat(s, i, i + |x3|, x2, name);
    SliceOfConcat(s, i, i + |x2|, x1, "secrets.");
    SliceOfConcat(s, i, i + |x1|, "${{", w1);
  }

  /** Every character of the slice satisfies the character class it is made of. */
  lemma SpacesSlice(s: string, p: nat, q: nat)
    requires p <= q <= |s| && Spaces(s[p..q])
    ensures forall k | p <= k < q :: IsSpace(s[k])
  {
    assert forall k | p <= k < q :: s[k] == s[p..q][k - p];
  }

  lemma NameSlice(s: string, p: nat, q: nat)
    requires p <= q <= |s| && IsSecretName(s[p..q])
    ensures p < q && forall k | p <= k < q :: IsIdentChar(s[k])
  {
    assert forall k | p <= k < q :: s[k] == s[p..q][k - p];
  }

  /** What the scan reports at `i` is a secret expression. */
  lemma SecretAtSound(s: string, i: nat)
    requires i <= |s| && SecretAt(s, i).Some?
    ensures ExpressionAt(s, i, SecretAt(s, i).value.1, SecretAt(s, i).value.0)
  {
    var a := SkipSpace(s, i + 3);
    var b := a + 8;
    var c := SkipIdent(s, b);
    var d := SkipSpace(s, c);
    assert SecretAt(s, i) == Some((s[b..c], d + 2));
    var w1, n, w2 := s[i + 3..a], s[b..c], s[c..d];
    assert Spaces(w1) && Spaces(w2);
    assert s[i..i + 3] == "${{" && s[a..b] == "secrets." && s[d..d + 2] == "}}";
    SliceSplit(s, i, i + 3, a);
    assert s[i..a] == "${{" + w1;
    SliceSplit(s, i, a, b);
    assert s[i..b] == "${{" + w1 + "secrets.";
    SliceSplit(s, i, b, c);
    SliceSplit(s, i, c, d);
    SliceSplit(s, i, d, d + 2);
    assert s[i..d + 2] == ExpressionText(w1, n, w2);
  }

  /** The scan at `i`, given where each of its steps stops. */
  lemma SecretAtSteps(s: string, i: nat, a: nat, c: nat, d: nat)
    requires i <= |s| && OccursAt("${{", s, i)
    requires i + 3 <= a <= |s| && SkipSpace(s, i + 3) == a && OccursAt("secrets.", s, a)
    requires a + 8 < c <= |s| && SkipIdent(s, a + 8) == c
    requires SkipSpace(s, c) == d && OccursAt("}}", s, d)
    ensures SecretAt(s, i) == Some((s[a + 8..c], d + 2))
  {
  }

  /** A secret expression at `i` is what the scan reports there. */
  lemma SecretAtComplete(s: string, i: nat, e: nat, name: string)
    requires ExpressionAt(s, i, e, name)
    ensures SecretAt(s, i) == Some((name, e))
  {
    var w1, w2 :| Spaces(w1) && Spaces(w2) && s[i..e] == ExpressionText(w1, name, w2);
    ExpressionLayout(s, i, e, w1, name, w2);
    var a := i + 3 + |w1|;
    var b := a + 8;
    var c := b + |name|;
    var d := c + |w2|;
    ExpressionStops(s, i, a, c, d);
    SecretAtSteps(s, i, a, c, d);
  }

  /** Each whitespace run and the name of a laid-out expression is skipped exactly. */
  lemma ExpressionStops(s: string, i: nat, a: nat, c: nat, d: nat)
    requires i + 3 <= a && a + 8 <= c <= d && d + 2 <= |s|
    requires s[i..i + 3] == "${{" && Spaces(s[i + 3..a]) && s[a..a + 8] == "secrets."
    requires IsSecretName(s[a + 8..c]) && Spaces(s[c..d]) && s[d..d + 2] == "}}"
    ensures OccursAt("${{", s, i) && OccursAt("secrets.", s, a) && OccursAt("}}", s, d)
    ensures SkipSpace(s, i + 3) == a && SkipIdent(s, a + 8) == c && a + 8 < c && SkipSpace(s, c) == d
  {
    SpacesSlice(s, i + 3, a);
    SpacesSlice(s, c, d);
    NameSlice(s, a + 8, c);
    assert s[a] == s[a..a + 8][0];
    assert s[d] == s[d..d + 2][0];
    SkipSpaceRun(s, i + 3, a);
    assert c < d ==> s[c] == s[c..d][0];
    SkipIdentRun(s, a + 8, c);
    SkipSpaceRun(s, c, d);
  }

  /** The scan reports `(name, e)` at `i` exactly when `s[i..e]` is a secret expression naming `name`. */
  lemma SecretAtSpec(s: string, i: nat, e: nat, name: string)
    requires i <= |s|
    ensures SecretAt(s, i) == Some((name, e)) <==> ExpressionAt(s, i, e, name)
  {
    if SecretAt(s, i) == Some((name, e)) {
      SecretAtSound(s, i);
    }
    if ExpressionAt(s, i, e, name) {
      SecretAtComplete(s, i, e, name);
    }
  }

  /** A secret expression starts with `$` and has no other `$`, so two of them never overlap. */
  lemma ExpressionDollars(s: string, i: nat, e: nat, name: string)
    requires ExpressionAt(s, i, e, name)
    ensures i < e && s[i] == '$'
    ensures forall k | i < k < e :: s[k] != '$'
  {
    var w1, w2 :| Spaces(w1) && Spaces(w2) && s[i..e] == ExpressionText(w1, name, w2);
    ExpressionLayout(s, i, e, w1, name, w2);
    var a := i + 3 + |w1|;
    var b := a + 8;
    var c := b + |name|;
    var d := c + |w2|;
    SpacesSlice(s, i + 3, a);
    SpacesSlice(s, c, d);
    NameSlice(s, b, c);
    assert forall k | i <= k < i + 3 :: s[k] == "${{"[k - i] by {
      assert forall k | i <= k < i + 3 :: s[k] == s[i..i + 3][k - i];
    }
    assert forall k | a <= k < b :: s[k] == "secrets."[k - a] by {
      assert forall k | a <= k < b :: s[k] == s[a..b][k - a];
    }
    assert forall k | d <= k < e :: s[k] == "}}"[k - d] by {
      assert forall k | d <= k < e :: s[k] == s[d..e][k - d];
    }
  }

  /** Every secret expression at or after `i` has its name found by the scan from `i`. */
  lemma {:induction false} FindsEveryExpression(s: string, i: nat, j: nat, e: nat, name: string)
    requires i <= j && ExpressionAt(s, j, e, name)
    ensures name in FindSecretsFrom(s, i)
    decreases |s| - i
  {
    if i == j {
      SecretAtComplete(s, j, e, name);
    } else {
      ExpressionDollars(s, j, e, name);
      match SecretAt(s, i)
      case None =>
        FindsEveryExpression(s, i + 1, j, e, name);
      case Some((m, f)) =>
        SecretAtSound(s, i);
        ExpressionDollars(s, i, f, m);
        assert f <= j;
        FindsEveryExpression(s, f, j, e, name);
    }
  }

  /** Every name the scan from `i` finds is that of a secret expression at or after `i`. */
  lemma {:induction false} FoundNamesAreExpressions(s: string, i: nat, name: string)
    requires i <= |s| && name in FindSecretsFrom(s, i)
    ensures exists j, e | i <= j :: ExpressionAt(s, j, e, name)
    decreases |s| - i
  {
    match SecretAt(s, i)
    case None =>
      FoundNamesAreExpressions(s, i + 1, name);
    case Some((m, f)) =>
      if name == m {
        SecretAtSound(s, i);
      } else {
        FoundNamesAreExpressions(s, f, name);
      }
  }

  /**
   * `re.findall` collects the name of every secret expression in `s`, and
   * nothing else.
   */
  lemma FindSecretsSpec(s: string, name: string)
    ensures name in FindSecrets(s) <==> exists j, e :: ExpressionAt(s, j, e, name)
  {
    if name in FindSecrets(s) {
      FoundNamesAreExpressions(s, 0, name);
    }
    if exists j, e :: ExpressionAt(s, j, e, name) {
      var j, e :| ExpressionAt(s, j, e, name);
      FindsEveryExpression(s, 0, j, e, name);
    }
  }

  /** An expression is found wherever it sits in the value. */
  lemma ExpressionInContext(before: string, w1: string, name: string, w2: string, after: string)
    requires IsSecretName(name) && Spaces(w1) && Spaces(w2)
    ensures name in FindSecrets(before + ExpressionText(w1, name, w2) + after)
  {
    var t := ExpressionText(w1, name, w2);
    var s := before + t + after;
    assert s[|before|..|before| + |t|] == t;
    FindsEveryExpression(s, 0, |before|, |before| + |t|, name);
  }

  /** `${{secrets.A}}-${{ secrets.B }}` and the like: both names are found. */
  lemma TwoExpressionsFound(a: string, b: string, between: string)
    requires IsSecretName(a) && IsSecretName(b)
    ensures var s := ExpressionText("", a, "") + between + ExpressionText(" ", b, " ");
      a in FindSecrets(s) && b in FindSecrets(s)
  {
    assert Spaces("") && Spaces(" ");
    assert ExpressionText("", a, "") + between + ExpressionText(" ", b, " ")
        == [] + ExpressionText("", a, "") + (between + ExpressionText(" ", b, " "));
    ExpressionInContext([], "", a, "", between + ExpressionText(" ", b, " "));
    ExpressionInContext(ExpressionText("", a, "") + between, " ", b, " ", []);
    assert ExpressionText("", a, "") + between + ExpressionText(" ", b, " ")
        == ExpressionText("", a, "") + between + ExpressionText(" ", b, " ") + [];
  }

  /** The expression `${{ secrets.NAME }}`, with one space inside each brace pair. */
  function SecretExpression(name: string): string
  {
    "${{ secrets." + name + " }}"
  }

  /** `${{ secrets.NAME }}` yields exactly the name NAME. */
  lemma SecretExpressionYieldsName(name: string)
    requires IsSecretName(name)
    ensures FindSecrets(SecretExpression(name)) == [name]
    ensures ValueSecrets(Str(SecretExpression(name))) == [name]
  {
    var s := SecretExpression(name);
    var n := |name|;
    assert s[..12] == "${{ secrets.";
    assert s[12..12 + n] == name;
    assert s[12 + n..] == " }}";
    assert OccursAt("${{", s, 0) by { assert s[..3] == s[..12][..3]; }
    assert SkipSpace(s, 4) == 4;
    assert SkipSpace(s, 3) == 4;
    assert OccursAt("secrets.", s, 4) by { assert s[4..12] == s[..12][4..]; }
    SkipIdentRun(s, 12, 12 + n);
    assert SkipSpace(s, 13 + n) == 13 + n;
    assert SkipSpace(s, 12 + n) == 13 + n;
    assert OccursAt("}}", s, 13 + n) by { assert s[13 + n..15 + n] == s[12 + n..][1..]; }
    assert SecretAt(s, 0) == Some((name, 15 + n));
    assert FindSecretsFrom(s, 15 + n) == [];
    assert Occurs("${{", s) && Occurs("secrets.", s);
  }

  /**
   * A step whose `with` section holds one `${{ secrets.NAME }}` value, and
   * which has no `env` or `secrets` section, requires exactly NAME.
   */
  lemma SingleSecretStep(uses: string, key: string, name: string)
    requires IsSecretName(name)
    ensures RequiredSecrets([("uses", Str(uses)), ("with", Mapping([(key, Str(SecretExpression(name)))]))]) == [name]
  {
    var fields := [(key, Str(SecretExpression(name)))];
    var config := [("uses", Str(uses)), ("with", Mapping(fields))];
    SecretExpressionYieldsName(name);
    assert ExpressionSecrets(fields) == [name] by { assert fields[..0] == []; }
    assert Lookup(config, "with") == Some(Mapping(fields));
    assert Lookup(config, "env") == None;
    assert Lookup(config, "secrets") == None;
    assert Dedup([name]) == [name];
  }

  /** `${{ secrets.GH_TOKEN }}` */
  const TokenExpression := SecretExpression("GH_TOKEN")

  /** The expression `${{ secrets.GH_TOKEN }}` yields exactly the name GH_TOKEN. */
  lemma TokenExpressionYieldsName()
    ensures FindSecrets(TokenExpression) == ["GH_TOKEN"]
  {
    assert IsSecretName("GH_TOKEN");
    SecretExpressionYieldsName("GH_TOKEN");
  }

  // ---- secrets of one configuration

  /** The secrets named in one `with`/`env` value: only strings are scanned. */
  function ValueSecrets(v: Value): seq<string>
  {
    if v.Str? && Occurs("${{", v.s) && Occurs("secrets.", v.s) then FindSecrets(v.s) else []
  }

  /** The secrets named in the values of a `with` or `env` mapping, in entry order. */
  function ExpressionSecrets(fields: Fields): seq<string>
  {
    if |fields| == 0 then []
    else ExpressionSecrets(fields[..|fields| - 1]) + ValueSecrets(fields[|fields| - 1].1)
  }

  /** The secrets of the `with` or `env` section of a configuration (a non-mapping section adds none). */
  function SectionSecrets(config: Fields, section: string): seq<string>
  {
    match Lookup(config, section)
    case Some(Mapping(fields)) => ExpressionSecrets(fields)
    case _ => []
  }

  /** The string elements of a list, in order. */
  function StringItems(items: seq<Value>): seq<string>
  {
    if |items| == 0 then []
    else StringItems(items[..|items| - 1]) + (if items[|items| - 1].Str? then [items[|items| - 1].s] else [])
  }

  /** An explicit `secrets` declaration: a mapping gives its keys, a list its elements, anything else nothing. */
  function DeclaredSecrets(config: Fields): seq<string>
  {
    match Lookup(config, "secrets")
    case Some(Mapping(fields)) => seq(|fields|, k requires 0 <= k < |fields| => fields[k].0)
    case Some(List(items)) => StringItems(items)
    case _ => []
  }

  /** `required_secrets`: the distinct secrets of all three sources. */
  function RequiredSecrets(config: Fields): seq<string>
  {
    Dedup(SectionSecrets(config, "with") + SectionSecrets(config, "env") + DeclaredSecrets(config))
  }

  lemma {:induction false} StringItemsSpec(items: seq<Value>)
    ensures forall x :: x in StringItems(items) <==> Str(x) in items
  {
    if |items| > 0 {
      StringItemsSpec(items[..|items| - 1]);
      assert items == items[..|items| - 1] + [items[|items| - 1]];
    }
  }

  /**
   * A `secrets` mapping contributes exactly its keys, a list exactly its
   * (string) elements, and any other shape, such as the string `inherit`,
   * nothing.
   */
  lemma DeclaredSecretsShapes(config: Fields)
    ensures Lookup(config, "secrets").Some? && Lookup(config, "secrets").value.Mapping? ==>
      forall x :: x in DeclaredSecrets(config) <==> HasKey(Lookup(config, "secrets").value.fields, x)
    ensures Lookup(config, "secrets").Some? && Lookup(config, "secrets").value.List? ==>
      forall x :: x in DeclaredSecrets(config) <==> Str(x) in Lookup(config, "secrets").value.items
    ensures Lookup(config, "secrets").Some? && Lookup(config, "secrets").value.Str? ==>
      DeclaredSecrets(config) == []
  {
    match Lookup(config, "secrets")
    case Some(List(items)) => StringItemsSpec(items);
    case Some(Mapping(fields)) =>
      forall x ensures x in DeclaredSecrets(config) <==> HasKey(fields, x) {
        if HasKey(fields, x) {
          var k :| 0 <= k < |fields| && fields[k].0 == x;
          assert DeclaredSecrets(config)[k] == x;
        }
      }
    case _ =>
  }

  /** A `with`/`env` value that is a string holding a secret expression naming `name`. */
  ghost predicate NamedIn(v: Value, name: string)
  {
    v.Str? && exists j, e :: ExpressionAt(v.s, j, e, name)
  }

  /** With the pre-test, a value names exactly the secrets of its expressions. */
  lemma ValueSecretsSpec(v: Value, name: string)
    ensures name in ValueSecrets(v) <==> NamedIn(v, name)
  {
    if v.Str? {
      FindSecretsSpec(v.s, name);
      SecretMarkersPrecheckIsExact(v.s);
    }
  }

  /** A mapping's values name exactly the secrets of the expressions in its string values. */
  lemma {:induction false} ExpressionSecretsSpec(fields: Fields, name: string)
    ensures name in ExpressionSecrets(fields) <==> exists k | 0 <= k < |fields| :: NamedIn(fields[k].1, name)
  {
    if |fields| > 0 {
      var init := fields[..|fields| - 1];
      ExpressionSecretsSpec(init, name);
      ValueSecretsSpec(fields[|fields| - 1].1, name);
      assert forall k | 0 <= k < |init| :: init[k] == fields[k];
    }
  }

  /**
   * The secrets of a `with` or `env` section are the names of the secret
   * expressions in its string values; a missing section, or one that is not
   * a mapping, names none.
   */
  lemma SectionSecretsSpec(config: Fields, section: string, name: string)
    ensures var v := Lookup(config, section);
      name in SectionSecrets(config, section) <==>
        v.Some? && v.value.Mapping? && exists k | 0 <= k < |v.value.fields| :: NamedIn(v.value.fields[k].1, name)
  {
    var v := Lookup(config, section);
    if v.Some? && v.value.Mapping? {
      ExpressionSecretsSpec(v.value.fields, name);
    }
  }

  /** An empty `with` mapping names no secrets. */
  lemma EmptyWithNamesNoSecrets(config: Fields)
    requires Lookup(config, "with") == Some(Mapping([]))
    ensures SectionSecrets(config, "with") == []
  {
  }

  /** The distinct secrets of a configuration are exactly those of its three sources. */
  lemma RequiredSecretsSpec(config: Fields)
    ensures NoDuplicates(RequiredSecrets(config))
    ensures forall x :: x in RequiredSecrets(config) <==>
      x in SectionSecrets(config, "with") || x in SectionSecrets(config, "env") || x in DeclaredSecrets(config)
  {
    DedupSpec(SectionSecrets(config, "with") + SectionSecrets(config, "env") + DeclaredSecrets(config));
  }

  /**
   * One of the two scanning loops of `extract_secrets`: the secret expressions
   * in the string values of the `with` or `env` mapping.
   */
  method ScanSection(config: Fields, section: string) returns (found: seq<string>)
    ensures found == SectionSecrets(config, section)
  {
    found := [];
    var entry := Lookup(config, section);
    if entry.Some? && entry.value.Mapping? {
      var fields := entry.value.fields;
      var k := 0;
      while k < |fields|
        invariant 0 <= k <= |fields|
        invariant found == ExpressionSecrets(fields[..k])
      {
        assert fields[..k + 1][..k] == fields[..k];
        var value := fields[k].1;
        if value.Str? && Occurs("${{", value.s) && Occurs("secrets.", value.s) {
          found := found + FindSecrets(value.s);
        }
        k := k + 1;
      }
      assert fields[..|fields|] == fields;
    }
  }

  /**
   * `extract_secrets`: the secret expressions of `with` and `env`, then an
   * explicit `secrets` declaration, each name once.
   */
  method ExtractSecrets(config: Fields) returns (secrets: seq<string>)
    ensures secrets == RequiredSecrets(config)
    ensures NoDuplicates(secrets)
    ensures forall x :: x in secrets <==>
      x in SectionSecrets(config, "with") || x in SectionSecrets(config, "env") || x in DeclaredSecrets(config)
  {
    var fromWith := ScanSection(config, "with");
    var fromEnv := ScanSection(config, "env");
    secrets := Dedup(fromWith + fromEnv + DeclaredSecrets(config));
    RequiredSecretsSpec(config);
  }

  /** The record `process_action` appends for one invocation site. */
  function MakeReference(repository: string, workflowFile: string, workflowPath: string,
                         jobName: string, stepName: Value, actionRef: string, config: Fields): Reference
  {
    var (name, version) := SplitReference(actionRef);
    var secrets := RequiredSecrets(config);
    Reference(repository, workflowFile, workflowPath, jobName, stepName, name, version, actionRef,
              IsPinned(version), |secrets| > 0, secrets, !IsFirstParty(name),
              Get(config, "with", Mapping([])))
  }

  /**
   * The part of `process_action` that builds the record: the split at the
   * first `@`, the pin check, `extract_secrets` and the third-party test.
   */
  method BuildReference(repository: string, workflowFile: string, workflowPath: string,
                        jobName: string, stepName: Value, actionRef: string, config: Fields)
    returns (entry: Reference)
    ensures entry == MakeReference(repository, workflowFile, workflowPath, jobName, stepName, actionRef, config)
  {
    var (name, version) := SplitReference(actionRef);
    var pinned := IsPinned(version);
    var secrets := ExtractSecrets(config);
    entry := Reference(repository, workflowFile, workflowPath, jobName, stepName, name, version,
                       actionRef, pinned, |secrets| > 0, secrets, !IsFirstParty(name),
                       Get(config, "with", Mapping([])));
  }

  /**
   * The emitted record keeps the original reference, splits it at the first
   * `@`, flags secrets exactly when some were found, is third-party exactly
   * outside the first-party namespaces, and carries the `with` mapping or `{}`.
   */
  lemma ReferenceFields(repository: string, workflowFile: string, workflowPath: string,
                        jobName: string, stepName: Value, actionRef: string, config: Fields)
    ensures var r := MakeReference(repository, workflowFile, workflowPath, jobName, stepName, actionRef, config);
      && r.fullReference == actionRef
      && r.repository == repository && r.workflowFile == workflowFile && r.workflowPath == workflowPath
      && r.jobName == jobName && r.stepName == stepName
      && ('@' !in actionRef ==> r.actionName == actionRef && r.actionVersion == Unspecified)
      && ('@' in actionRef ==>
            && '@' !in r.actionName && '@' !in r.actionVersion
            && (actionRef == r.actionName + "@" + r.actionVersion
                || StartsWith(actionRef, r.actionName + "@" + r.actionVersion + "@")))
      && (r.isPinned <==> |r.actionVersion| == 40 && forall k | 0 <= k < 40 :: IsLowerHex(r.actionVersion[k]))
      && (r.hasSecrets <==> r.requiredSecrets != [])
      && NoDuplicates(r.requiredSecrets)
      && (r.isThirdParty <==> !(StartsWith(r.actionName, "actions/") || StartsWith(r.actionName, "github/")))
      && (HasKey(config, "with") ==> Lookup(config, "with") == Some(r.withParams))
      && (!HasKey(config, "with") ==> r.withParams == Mapping([]))
  {
    RequiredSecretsSpec(config);
  }
}
