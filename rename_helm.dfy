/**
 * The Helm chart rename script: five literal substitutions that turn
 * `kagent` template names and labels into `maduro`, a file written back only
 * when its text changed, and the file-name filter that picks the templates.
 */
module RenameHelm {

  /**
   * Python's `s.replace(pat, rep)`: scanning left to right, every occurrence
   * of `pat` that does not overlap an earlier replaced one becomes `rep`. An
   * empty pattern matches before every character and at the end.
   */
  function ReplaceAll(s: string, pat: string, rep: string): (r: string)
    ensures |pat| == |rep| ==> |r| == |s|
    decreases |s|
  {
    if pat == [] then
      if s == [] then rep else rep + [s[0]] + ReplaceAll(s[1..], pat, rep)
    else if |s| < |pat| then s
    else if s[..|pat|] == pat then rep + ReplaceAll(s[|pat|..], pat, rep)
    else [s[0]] + ReplaceAll(s[1..], pat, rep)
  }

  /** `sub` occurs in `s` starting at index `i`. */
  predicate OccursAt(s: string, sub: string, i: int) {
    0 <= i <= |s| - |sub| && s[i..i + |sub|] == sub
  }

  /** `sub in s`. */
  predicate Contains(s: string, sub: string) {
    exists i | 0 <= i <= |s| - |sub| :: OccursAt(s, sub, i)
  }

  lemma OccursAtShift(s: string, sub: string, i: int)
    requires s != [] && 0 <= i
    ensures OccursAt(s[1..], sub, i) <==> OccursAt(s, sub, i + 1)
  {
  }

  /** An occurrence that is not at the front is an occurrence in the tail. */
  lemma ContainsTail(s: string, sub: string)
    requires s != [] && !OccursAt(s, sub, 0)
    ensures Contains(s, sub) <==> Contains(s[1..], sub)
  {
    if Contains(s, sub) {
      var i :| 0 <= i <= |s| - |sub| && OccursAt(s, sub, i);
      OccursAtShift(s, sub, i - 1);
    }
    if Contains(s[1..], sub) {
      var i :| 0 <= i <= |s[1..]| - |sub| && OccursAt(s[1..], sub, i);
      OccursAtShift(s, sub, i);
    }
  }

  /** Text in which the pattern does not occur comes back unchanged. */
  lemma {:induction false} ReplaceAllAbsent(s: string, pat: string, rep: string)
    requires !Contains(s, pat)
    ensures ReplaceAll(s, pat, rep) == s
    decreases |s|
  {
    assert !OccursAt(s, pat, 0);
    if |s| >= |pat| {
      assert s[..|pat|] != pat;
      ContainsTail(s, pat);
      ReplaceAllAbsent(s[1..], pat, rep);
    }
  }

  /** The number of occurrences of the character `c` in `s`. */
  function CountChar(c: char, s: string): nat
  {
    if s == [] then 0 else (if s[0] == c then 1 else 0) + CountChar(c, s[1..])
  }

  lemma {:induction false} CountCharConcat(c: char, a: string, b: string)
    ensures CountChar(c, a + b) == CountChar(c, a) + CountChar(c, b)
  {
    if a == [] {
      assert a + b == b;
    } else {
      assert (a + b)[1..] == a[1..] + b;
      CountCharConcat(c, a[1..], b);
    }
  }

  /**
   * A substitution whose replacement holds fewer `c` than its pattern never
   * adds a `c`, and removes at least one whenever the pattern occurs.
   */
  lemma {:induction false} ReplaceAllCount(c: char, s: string, pat: string, rep: string)
    requires pat != [] && CountChar(c, rep) < CountChar(c, pat)
    ensures CountChar(c, ReplaceAll(s, pat, rep)) <= CountChar(c, s)
    ensures Contains(s, pat) ==> CountChar(c, ReplaceAll(s, pat, rep)) < CountChar(c, s)
    decreases |s|
  {
    if |s| < |pat| {
      assert forall i :: !OccursAt(s, pat, i);
    } else if s[..|pat|] == pat {
      ReplaceAllCount(c, s[|pat|..], pat, rep);
      CountCharConcat(c, rep, ReplaceAll(s[|pat|..], pat, rep));
      assert s == pat + s[|pat|..];
      CountCharConcat(c, pat, s[|pat|..]);
    } else {
      ReplaceAllCount(c, s[1..], pat, rep);
      CountCharConcat(c, [s[0]], ReplaceAll(s[1..], pat, rep));
      assert !OccursAt(s, pat, 0);
      ContainsTail(s, pat);
    }
  }

  datatype Substitution = Substitution(pattern: string, replacement: string)

  /** The substitution of `kagent` by `maduro` between a fixed prefix and suffix. */
  function KagentToMaduro(prefix: string, suffix: string): (sub: Substitution)
    ensures sub.pattern != [] && |sub.pattern| == |sub.replacement|
  {
    Substitution(prefix + "kagent" + suffix, prefix + "maduro" + suffix)
  }

  /** The five substitutions of `replace_in_file`, in the order they are applied. */
  const SUBSTITUTIONS: seq<Substitution> := [
    KagentToMaduro("include \"", "."),
    KagentToMaduro("template \"", "."),
    KagentToMaduro("define \"", "."),
    KagentToMaduro("app.kubernetes.io/part-of: ", ""),
    KagentToMaduro("name: ", "")
  ]

  /** Written out, the five pairs are the literals of `replace_in_file`. */
  lemma SubstitutionsAsWritten()
    ensures SUBSTITUTIONS == [
      Substitution("include \"kagent.", "include \"maduro."),
      Substitution("template \"kagent.", "template \"maduro."),
      Substitution("define \"kagent.", "define \"maduro."),
      Substitution("app.kubernetes.io/part-of: kagent", "app.kubernetes.io/part-of: maduro"),
      Substitution("name: kagent", "name: maduro")
    ]
  {
    assert SUBSTITUTIONS[0] == Substitution("include \"kagent.", "include \"maduro.");
    assert SUBSTITUTIONS[1] == Substitution("template \"kagent.", "template \"maduro.");
    assert SUBSTITUTIONS[2] == Substitution("define \"kagent.", "define \"maduro.");
    assert SUBSTITUTIONS[3] == Substitution("app.kubernetes.io/part-of: kagent", "app.kubernetes.io/part-of: maduro");
    assert SUBSTITUTIONS[4] == Substitution("name: kagent", "name: maduro");
  }

  /** Each substitution is applied, with replace-all, to the output of the one before. */
  function ApplySubstitutions(s: string, subs: seq<Substitution>): (r: string)
    ensures (forall i | 0 <= i < |subs| :: |subs[i].pattern| == |subs[i].replacement|) ==> |r| == |s|
    decreases |subs|
  {
    if subs == [] then s
    else ApplySubstitutions(ReplaceAll(s, subs[0].pattern, subs[0].replacement), subs[1..])
  }

  /**
   * Every pattern is non-empty and holds more `k` than its replacement, as a
   * `kagent`-to-`maduro` substitution does.
   */
  predicate RemovesK(subs: seq<Substitution>) {
    forall i | 0 <= i < |subs| ::
      subs[i].pattern != [] && CountChar('k', subs[i].replacement) < CountChar('k', subs[i].pattern)
  }

  lemma {:induction false} ApplySubstitutionsCount(s: string, subs: seq<Substitution>)
    requires RemovesK(subs)
    ensures CountChar('k', ApplySubstitutions(s, subs)) <= CountChar('k', s)
    decreases |subs|
  {
    if subs != [] {
      ReplaceAllCount('k', s, subs[0].pattern, subs[0].replacement);
      ApplySubstitutionsCount(ReplaceAll(s, subs[0].pattern, subs[0].replacement), subs[1..]);
    }
  }

  /**
   * The chain leaves the text unchanged exactly when none of its patterns
   * occurs in the original text: no later substitution can undo an earlier one.
   */
  lemma {:induction false} ApplySubstitutionsUnchangedIff(s: string, subs: seq<Substitution>)
    requires RemovesK(subs)
    ensures ApplySubstitutions(s, subs) == s <==> forall i | 0 <= i < |subs| :: !Contains(s, subs[i].pattern)
    decreases |subs|
  {
    if subs != [] {
      var t := ReplaceAll(s, subs[0].pattern, subs[0].replacement);
      ReplaceAllCount('k', s, subs[0].pattern, subs[0].replacement);
      ApplySubstitutionsCount(t, subs[1..]);
      if !Contains(s, subs[0].pattern) {
        ReplaceAllAbsent(s, subs[0].pattern, subs[0].replacement);
        ApplySubstitutionsUnchangedIff(s, subs[1..]);
        assert forall i | 1 <= i < |subs| :: subs[i] == subs[1..][i - 1];
      }
    }
  }

  /** The text `replace_in_file` computes from a file's content. */
  function Rename(content: string): (newContent: string)
    ensures |newContent| == |content|
  {
    ApplySubstitutions(content, SUBSTITUTIONS)
  }

  /** What `replace_in_file` does with a file: leave it, or write the new text. */
  datatype FileUpdate = Keep | Write(newContent: string)

  /** `replace_in_file` once the file is read: the write is guarded by `content != new_content`. */
  function ReplaceInFile(content: string): (u: FileUpdate)
    ensures u.Write? ==> u.newContent == Rename(content) && u.newContent != content
    ensures u.Write? ==> |u.newContent| == |content|
    ensures u.Keep? ==> Rename(content) == content
  {
    var newContent := Rename(content);
    if content != newContent then Write(newContent) else Keep
  }

  lemma KagentToMaduroRemovesK(prefix: string, suffix: string)
    ensures CountChar('k', KagentToMaduro(prefix, suffix).replacement)
            < CountChar('k', KagentToMaduro(prefix, suffix).pattern)
  {
    CountCharConcat('k', prefix, "kagent");
    CountCharConcat('k', prefix + "kagent", suffix);
    CountCharConcat('k', prefix, "maduro");
    CountCharConcat('k', prefix + "maduro", suffix);
    assert CountChar('k', "kagent") == 1;
    assert CountChar('k', "maduro") == 0;
  }

  lemma SubstitutionsRemoveK()
    ensures RemovesK(SUBSTITUTIONS)
  {
    KagentToMaduroRemovesK("include \"", ".");
    KagentToMaduroRemovesK("template \"", ".");
    KagentToMaduroRemovesK("define \"", ".");
    KagentToMaduroRemovesK("app.kubernetes.io/part-of: ", "");
    KagentToMaduroRemovesK("name: ", "");
  }

  /** A file is written back exactly when one of the five patterns occurs in it. */
  lemma ReplaceInFileWritesIff(content: string)
    ensures ReplaceInFile(content).Write?
            <==> exists i | 0 <= i < |SUBSTITUTIONS| :: Contains(content, SUBSTITUTIONS[i].pattern)
  {
    SubstitutionsRemoveK();
    ApplySubstitutionsUnchangedIff(content, SUBSTITUTIONS);
  }

  lemma ContainsTransitive(s: string, mid: string, sub: string)
    requires Contains(s, mid) && Contains(mid, sub)
    ensures Contains(s, sub)
  {
    var i :| 0 <= i <= |s| - |mid| && OccursAt(s, mid, i);
    var j :| 0 <= j <= |mid| - |sub| && OccursAt(mid, sub, j);
    forall k | 0 <= k < |sub|
      ensures s[i + j..i + j + |sub|][k] == sub[k]
    {
      assert sub[k] == mid[j..j + |sub|][k] == mid[j + k];
      assert mid[j + k] == s[i..i + |mid|][j + k] == s[i + j + k];
    }
    assert OccursAt(s, sub, i + j);
  }

  lemma KagentToMaduroMentionsKagent(prefix: string, suffix: string)
    ensures Contains(KagentToMaduro(prefix, suffix).pattern, "kagent")
  {
    var p := KagentToMaduro(prefix, suffix).pattern;
    assert p[|prefix|..|prefix| + 6] == "kagent";
    assert OccursAt(p, "kagent", |prefix|);
  }

  /** Text without `kagent` is never rewritten. */
  lemma NoKagentNoWrite(content: string)
    requires !Contains(content, "kagent")
    ensures ReplaceInFile(content) == Keep
  {
    KagentToMaduroMentionsKagent("include \"", ".");
    KagentToMaduroMentionsKagent("template \"", ".");
    KagentToMaduroMentionsKagent("define \"", ".");
    KagentToMaduroMentionsKagent("app.kubernetes.io/part-of: ", "");
    KagentToMaduroMentionsKagent("name: ", "");
    forall i | 0 <= i < |SUBSTITUTIONS|
      ensures !Contains(content, SUBSTITUTIONS[i].pattern)
    {
      if Contains(content, SUBSTITUTIONS[i].pattern) {
        ContainsTransitive(content, SUBSTITUTIONS[i].pattern, "kagent");
      }
    }
    ReplaceInFileWritesIff(content);
  }

  /** Python's `s.endswith(suffix)`: `s` is some stem followed by `suffix`. */
  predicate EndsWith(s: string, suffix: string)
    ensures EndsWith(s, suffix) <==> |suffix| <= |s| && s == s[..|s| - |suffix|] + suffix
  {
    |suffix| <= |s| && s[|s| - |suffix|..] == suffix
  }

  /** The extensions `main` accepts. */
  predicate IsTemplateExtension(ext: string) {
    ext == ".yaml" || ext == ".tpl" || ext == ".txt"
  }

  /**
   * The file-name test in `main`: a file is processed exactly when its name
   * is some stem followed by `.yaml`, `.tpl` or `.txt`.
   */
  predicate IsTemplateFile(fileName: string)
    ensures IsTemplateFile(fileName) <==> exists k | 0 <= k <= |fileName| :: IsTemplateExtension(fileName[k..])
  {
    EndsWith(fileName, ".yaml") || EndsWith(fileName, ".tpl") || EndsWith(fileName, ".txt")
  }

  /** Any stem with one of the three extensions appended is processed. */
  lemma ExtensionMakesTemplateFile(stem: string, ext: string)
    requires IsTemplateExtension(ext)
    ensures IsTemplateFile(stem + ext)
  {
  }

  /** The test is on the exact, case-sensitive suffix. */
  lemma IsTemplateFileExamples()
    ensures IsTemplateFile("Chart.yaml") && IsTemplateFile("_helpers.tpl") && IsTemplateFile("NOTES.txt")
    ensures !IsTemplateFile("values.yml") && !IsTemplateFile("deploy.YAML") && !IsTemplateFile("chart.yaml.bak")
  {
  }
}
