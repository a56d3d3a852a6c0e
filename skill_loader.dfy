/** Skills: a skill name as a milestone writes it is normalised to the
    kebab-case name of its directory, and a skill file is an optional YAML
    front matter between "---" lines followed by the skill's text. Reading
    the file and parsing YAML are oracles. */
module SkillLoader {
  import opened Wrappers
  import opened Json
  import opened Strs
  import opened Workflow
  import opened Schemas

  /** What one character after the first becomes: an upper-case letter is
      preceded by '-' and lowered. */
  function Piece(c: char): (r: string)
    ensures forall k :: 0 <= k < |r| ==> !IsUpper(r[k])
  {
    if IsUpper(c) then ['-', LowerChar(c)] else [c]
  }

  /** The camel-case pass over the characters after the first. */
  function Hyphenated(t: string): (r: string)
    ensures forall k :: 0 <= k < |r| ==> !IsUpper(r[k])
  {
    if t == [] then []
    else
      var before := Hyphenated(t[..|t| - 1]);
      var p := Piece(t[|t| - 1]);
      assert forall k :: |before| <= k < |before + p| ==> (before + p)[k] == p[k - |before|];
      before + p
  }

  /** The camel-case pass: the first character is only lowered. */
  function Camel(s: string): (r: string)
    ensures forall k :: 0 <= k < |r| ==> !IsUpper(r[k])
  {
    if s == [] then [] else [LowerChar(s[0])] + Hyphenated(s[1..])
  }

  /** A name already in directory form: no upper-case letter, '_' or ' '. */
  predicate Kebab(s: string) {
    forall k :: 0 <= k < |s| ==> !IsUpper(s[k]) && s[k] != '_' && s[k] != ' '
  }

  /** The name `normalize_skill_name` gives. */
  function NormalizedName(s: string): string {
    ReplaceChar(ReplaceChar(Camel(s), '_', '-'), ' ', '-')
  }

  /** `normalize_skill_name`. */
  method NormalizeSkillName(name: string) returns (r: string)
    ensures r == NormalizedName(name)
    ensures name == "" ==> r == ""
  {
    if name == "" {
      return "";
    }
    var result := [LowerChar(name[0])];
    var rest := name[1..];
    for i := 0 to |rest|
      invariant result == [LowerChar(name[0])] + Hyphenated(rest[..i])
    {
      assert rest[..i + 1][..i] == rest[..i];
      if IsUpper(rest[i]) {
        result := result + ['-', LowerChar(rest[i])];
      } else {
        result := result + [rest[i]];
      }
    }
    assert rest[..|rest|] == rest;
    r := ReplaceChar(ReplaceChar(result, '_', '-'), ' ', '-');
  }

  /** Every normalised name is in directory form. */
  lemma NormalizedIsKebab(s: string)
    ensures Kebab(NormalizedName(s))
  {
  }

  /** Characters without upper-case letters pass the camel-case pass
      unchanged. */
  lemma {:induction false} HyphenatedKeepsLower(t: string)
    requires forall k :: 0 <= k < |t| ==> !IsUpper(t[k])
    ensures Hyphenated(t) == t
  {
    if t != [] {
      HyphenatedKeepsLower(t[..|t| - 1]);
      assert t == t[..|t| - 1] + [t[|t| - 1]];
    }
  }

  /** A name in directory form is its own normalisation, so normalising
      twice is normalising once. */
  lemma KebabIsFixed(s: string)
    requires Kebab(s)
    ensures NormalizedName(s) == s
  {
    if s != [] {
      HyphenatedKeepsLower(s[1..]);
      assert Camel(s) == s;
    }
  }

  lemma NormalizeIdempotent(s: string)
    ensures NormalizedName(NormalizedName(s)) == NormalizedName(s)
  {
    NormalizedIsKebab(s);
    KebabIsFixed(NormalizedName(s));
  }

  /** A name with no upper-case letter passes the camel-case pass
      unchanged. */
  lemma CamelKeepsLower(s: string)
    requires forall k :: 0 <= k < |s| ==> !IsUpper(s[k])
    ensures Camel(s) == s
  {
    if s != [] {
      HyphenatedKeepsLower(s[1..]);
    }
  }

  /** Snake case becomes kebab case: two words in directory form joined
      by '_' are joined by '-' instead. */
  lemma SnakeToKebab(a: string, b: string)
    requires Kebab(a) && Kebab(b)
    ensures NormalizedName(a + "_" + b) == a + "-" + b
  {
    var s := a + "_" + b;
    CamelKeepsLower(s);
    var t := ReplaceChar(s, '_', '-');
    assert t == a + "-" + b;
    SpacelessKept(t);
  }

  /** A name without spaces is unchanged by the last replacement. */
  lemma SpacelessKept(s: string)
    requires forall k :: 0 <= k < |s| ==> s[k] != ' '
    ensures ReplaceChar(s, ' ', '-') == s
  {
  }

  /** A name without '_' or spaces is unchanged by both replacements. */
  lemma KebabKept(s: string)
    requires Kebab(s)
    ensures ReplaceChar(ReplaceChar(s, '_', '-'), ' ', '-') == s
  {
    assert ReplaceChar(s, '_', '-') == s;
  }

  /** Camel case becomes kebab case: the first character is lowered, and
      an upper-case letter after it starts a new '-'-separated word in
      lower case. */
  lemma CamelToKebab(a: string, c: char, b: string)
    requires a != [] && a[0] != '_' && a[0] != ' ' && Kebab(a[1..]) && IsUpper(c) && Kebab(b)
    ensures NormalizedName(a + [c] + b) == [LowerChar(a[0])] + a[1..] + ['-', LowerChar(c)] + b
  {
    var low := ['-', LowerChar(c)];
    var first := [LowerChar(a[0])];
    CamelOfJoin(a, c, b);
    var r := first + a[1..] + low + b;
    forall k | 0 <= k < |r|
      ensures !IsUpper(r[k]) && r[k] != '_' && r[k] != ' '
    {
      if k == 0 {
        assert r[k] == LowerChar(a[0]);
      } else if k < |a| {
        assert r[k] == a[1..][k - 1];
      } else if k < |a| + 2 {
        assert r[k] == low[k - |a|];
      } else {
        assert r[k] == b[k - |a| - 2];
      }
    }
    KebabKept(r);
  }

  /** The camel-case pass on a word, an upper-case letter and a word with
      no upper-case letters. */
  lemma CamelOfJoin(a: string, c: char, b: string)
    requires a != [] && IsUpper(c)
    requires forall k :: 0 <= k < |a[1..]| ==> !IsUpper(a[1..][k])
    requires forall k :: 0 <= k < |b| ==> !IsUpper(b[k])
    ensures Camel(a + [c] + b) == [LowerChar(a[0])] + a[1..] + ['-', LowerChar(c)] + b
  {
    var s := a + [c] + b;
    var low := ['-', LowerChar(c)];
    assert s[1..] == a[1..] + [c] + b;
    HyphenatedJoin(a[1..], c, b);
    var tail := Hyphenated(s[1..]);
    assert Camel(s) == [LowerChar(a[0])] + tail;
    AppendAssoc([LowerChar(a[0])], a[1..] + low, b);
    AppendAssoc([LowerChar(a[0])], a[1..], low);
  }

  /** The pass after the first character on `a`, an upper-case letter and
      `b`. */
  lemma HyphenatedJoin(a: string, c: char, b: string)
    requires IsUpper(c)
    requires forall k :: 0 <= k < |a| ==> !IsUpper(a[k])
    requires forall k :: 0 <= k < |b| ==> !IsUpper(b[k])
    ensures Hyphenated(a + [c] + b) == a + ['-', LowerChar(c)] + b
  {
    HyphenatedConcat(a + [c], b);
    HyphenatedConcat(a, [c]);
    HyphenatedKeepsLower(a);
    HyphenatedKeepsLower(b);
    assert Hyphenated([c]) == ['-', LowerChar(c)] by {
      assert [c][..0] == [];
    }
  }

  lemma {:induction false} HyphenatedConcat(a: string, b: string)
    ensures Hyphenated(a + b) == Hyphenated(a) + Hyphenated(b)
    decreases |b|
  {
    if b == [] {
      assert a + b == a;
    } else {
      HyphenatedConcat(a, b[..|b| - 1]);
      assert (a + b)[..|a + b| - 1] == a + b[..|b| - 1];
    }
  }

  /** The delimiter "---" starts at index `k` of `s`. */
  predicate DelimiterAt(s: string, k: nat) {
    k + 3 <= |s| && s[k..k + 3] == "---"
  }

  /** The first "---" in `s` starting at `from` or later, or -1. */
  function FindDelimiter(s: string, from: nat): (r: int)
    ensures r == -1 || (from <= r && DelimiterAt(s, r))
    ensures forall k: nat :: from <= k && (r == -1 || k < r) ==> !DelimiterAt(s, k)
    decreases |s| - from
  {
    if from + 3 > |s| then -1
    else if s[from..from + 3] == "---" then from
    else FindDelimiter(s, from + 1)
  }

  /** A file split into its front matter, if any, and its body. */
  datatype Parts = Parts(frontMatter: Option<string>, body: string)

  /** `content.split("---", 2)` on content starting with "---": with a
      second delimiter, the text between the two is the front matter and
      the text after the second the body; otherwise all is body. */
  function SplitFrontMatter(content: string): (r: Parts)
    ensures !("---" <= content) ==> r == Parts(None, content)
    ensures r.frontMatter.None? ==> r.body == content
    ensures r.frontMatter.Some? ==> content == "---" + r.frontMatter.value + "---" + r.body
  {
    if "---" <= content then
      var k := FindDelimiter(content, 3);
      if k < 0 then Parts(None, content)
      else
        assert content == content[..3] + content[3..k] + content[k..k + 3] + content[k + 3..];
        Parts(Some(content[3..k]), content[k + 3..])
    else Parts(None, content)
  }

  /** Front matter that holds no delimiter, even where it meets the closing
      "---", is found again with the body after it. */
  lemma FrontMatterRoundTrip(fm: string, body: string)
    requires forall k: nat :: k < |fm| ==> !DelimiterAt(fm + "--", k)
    ensures SplitFrontMatter("---" + fm + "---" + body) == Parts(Some(fm), body)
  {
    var content := "---" + fm + "---" + body;
    var end := 3 + |fm|;
    assert content[..3] == "---";
    forall k: nat | 3 <= k < end
      ensures !DelimiterAt(content, k)
    {
      assert !DelimiterAt(fm + "--", k - 3);
      assert content[k..k + 3] == (fm + "--")[k - 3..k];
    }
    assert content[end..end + 3] == "---";
    assert DelimiterAt(content, end);
    assert content[3..end] == fm;
    assert content[end + 3..] == body;
  }

  /** What `load_skill_config` builds; `name` and `description` are the
      front matter's values, so they need not be strings. */
  datatype SkillConfig = SkillConfig(name: Json, description: Json, content: string, metadata: map<string, Json>)

  /** The front matter's data: none without front matter, empty when it
      is unparsable or falsy; anything but a mapping makes the later
      `.get` fail. */
  function Metadata(frontMatter: Option<string>, parseYaml: string -> Result<Json>): (r: Result<map<string, Json>>)
    ensures frontMatter.None? ==> r == Success(map[])
    ensures frontMatter.Some? && parseYaml(frontMatter.value).Failure? ==> r == Success(map[])
  {
    if frontMatter.None? then Success(map[])
    else
      match parseYaml(frontMatter.value)
      case Failure(_) => Success(map[])
      case Success(j) =>
        if !Truthy(j) then Success(map[])
        else if j.Obj? then Success(j.fields)
        else Failure("'" + TypeName(j) + "' object has no attribute 'get'")
  }

  /** Where the skill file of `skillName` lies. */
  function SkillPath(skillsDir: string, skillName: string): string {
    skillsDir + "/" + NormalizedName(skillName) + "/SKILL.md"
  }

  /** `load_skill_config`: the file is `skillsDir/<normalised name>/SKILL.md`,
      which `read` returns when it exists. */
  function LoadSkillConfig(skillName: string, skillsDir: string, read: string -> Option<string>,
                           parseYaml: string -> Result<Json>): (r: Result<SkillConfig>)
    ensures var path := SkillPath(skillsDir, skillName);
      && (read(path).None? ==> r == Failure("Skill not found: " + skillName + " (looked for " + path + ")"))
      && (read(path).Some? ==>
            (r.Success? <==> Metadata(SplitFrontMatter(read(path).value).frontMatter, parseYaml).Success?))
      && (read(path).Some? && r.Success? ==>
            var parts := SplitFrontMatter(read(path).value);
            && r.value.content == Strip(parts.body)
            && r.value.name == (if "name" in r.value.metadata then r.value.metadata["name"] else Str(NormalizedName(skillName)))
            && r.value.description == (if "description" in r.value.metadata then r.value.metadata["description"] else Str(""))
            && (parts.frontMatter.None? ==> r.value.metadata == map[]))
  {
    var normalized := NormalizedName(skillName);
    var path := SkillPath(skillsDir, skillName);
    match read(path)
    case None => Failure("Skill not found: " + skillName + " (looked for " + path + ")")
    case Some(content) =>
      var parts := SplitFrontMatter(content);
      var metadata :- Metadata(parts.frontMatter, parseYaml);
      Success(SkillConfig(
        if "name" in metadata then metadata["name"] else Str(normalized),
        if "description" in metadata then metadata["description"] else Str(""),
        Strip(parts.body),
        metadata))
  }

  /** The line `f"- {name}: {description}"` of one loaded skill. */
  function SkillLine(config: SkillConfig, render: Json -> string): string {
    "- " + PyStr(render, config.name) + ": " + PyStr(render, config.description)
  }

  /** The description lines of the skills in `names`: a skill without a
      file is skipped, any other failure to load one is the result. */
  function DescriptionLines(names: seq<string>, skillsDir: string, read: string -> Option<string>,
                            parseYaml: string -> Result<Json>, render: Json -> string): Result<seq<string>>
  {
    if names == [] then Success([])
    else
      var before :- DescriptionLines(names[..|names| - 1], skillsDir, read, parseYaml, render);
      var name := names[|names| - 1];
      if read(SkillPath(skillsDir, name)).None? then Success(before)
      else
        var config :- LoadSkillConfig(name, skillsDir, read, parseYaml);
        Success(before + [SkillLine(config, render)])
  }

  /** The skills of `names` that have a file, in order. */
  function WithFile(names: seq<string>, skillsDir: string, read: string -> Option<string>): (r: seq<string>)
    ensures forall n :: n in r <==> n in names && read(SkillPath(skillsDir, n)).Some?
  {
    if names == [] then []
    else
      var before := WithFile(names[..|names| - 1], skillsDir, read);
      var name := names[|names| - 1];
      assert names == names[..|names| - 1] + [name];
      if read(SkillPath(skillsDir, name)).Some? then before + [name] else before
  }

  /** The line a skill with a loadable file contributes. */
  ghost predicate Describes(line: string, name: string, skillsDir: string, read: string -> Option<string>,
                            parseYaml: string -> Result<Json>, render: Json -> string) {
    var config := LoadSkillConfig(name, skillsDir, read, parseYaml);
    config.Success? && line == SkillLine(config.value, render)
  }

  /** Without failures other than missing files, every listed skill with a
      file contributes one line, in order, and the others none. */
  lemma {:induction false} DescriptionLinesCount(names: seq<string>, skillsDir: string, read: string -> Option<string>,
                                                 parseYaml: string -> Result<Json>, render: Json -> string)
    requires DescriptionLines(names, skillsDir, read, parseYaml, render).Success?
    ensures var lines := DescriptionLines(names, skillsDir, read, parseYaml, render).value;
      && |lines| == |WithFile(names, skillsDir, read)|
      && forall k :: 0 <= k < |lines| ==>
           Describes(lines[k], WithFile(names, skillsDir, read)[k], skillsDir, read, parseYaml, render)
  {
    if names != [] {
      var init := names[..|names| - 1];
      var name := names[|names| - 1];
      DescriptionLinesCount(init, skillsDir, read, parseYaml, render);
      var before := DescriptionLines(init, skillsDir, read, parseYaml, render).value;
      var files := WithFile(init, skillsDir, read);
      if read(SkillPath(skillsDir, name)).Some? {
        var config := LoadSkillConfig(name, skillsDir, read, parseYaml).value;
        var line := SkillLine(config, render);
        var lines := before + [line];
        assert DescriptionLines(names, skillsDir, read, parseYaml, render).value == lines;
        assert WithFile(names, skillsDir, read) == files + [name];
        forall k | 0 <= k < |lines|
          ensures Describes(lines[k], (files + [name])[k], skillsDir, read, parseYaml, render)
        {
          if k < |before| {
            assert lines[k] == before[k] && (files + [name])[k] == files[k];
          }
        }
      } else {
        assert DescriptionLines(names, skillsDir, read, parseYaml, render).value == before;
        assert WithFile(names, skillsDir, read) == files;
      }
    }
  }

  /** `get_available_skills_description` over the skill directories
      `names`. */
  method AvailableSkillsDescription(names: seq<string>, skillsDir: string, read: string -> Option<string>,
                                    parseYaml: string -> Result<Json>, render: Json -> string)
    returns (r: Result<string>)
    ensures DescriptionLines(names, skillsDir, read, parseYaml, render).Failure? ==>
      r == Failure(DescriptionLines(names, skillsDir, read, parseYaml, render).error)
    ensures DescriptionLines(names, skillsDir, read, parseYaml, render).Success? ==>
      var lines := DescriptionLines(names, skillsDir, read, parseYaml, render).value;
      r == Success(if lines == [] then "No skills available" else Join(lines, "\n"))
  {
    var lines: seq<string> := [];
    for i := 0 to |names|
      invariant DescriptionLines(names[..i], skillsDir, read, parseYaml, render) == Success(lines)
    {
      assert names[..i + 1][..i] == names[..i];
      var name := names[i];
      if read(SkillPath(skillsDir, name)).Some? {
        var config := LoadSkillConfig(name, skillsDir, read, parseYaml);
        if config.Failure? {
          PrefixFailure(names, i + 1, skillsDir, read, parseYaml, render);
          return Failure(config.error);
        }
        lines := lines + [SkillLine(config.value, render)];
      }
    }
    assert names[..|names|] == names;
    r := Success(if lines == [] then "No skills available" else Join(lines, "\n"));
  }

  /** A failure on a prefix of the skills is the failure of all of them. */
  lemma {:induction false} PrefixFailure(names: seq<string>, n: nat, skillsDir: string, read: string -> Option<string>,
                                         parseYaml: string -> Result<Json>, render: Json -> string)
    requires n <= |names|
    requires DescriptionLines(names[..n], skillsDir, read, parseYaml, render).Failure?
    ensures DescriptionLines(names, skillsDir, read, parseYaml, render)
      == DescriptionLines(names[..n], skillsDir, read, parseYaml, render)
    decreases |names| - n
  {
    if n < |names| {
      assert names[..n + 1][..n] == names[..n];
      PrefixFailure(names, n + 1, skillsDir, read, parseYaml, render);
    } else {
      assert names[..n] == names;
    }
  }

  /** Python's `s[:n]`: a negative `n` counts from the end. */
  function PrefixSlice<T>(s: seq<T>, n: int): (r: seq<T>)
    ensures r <= s
    ensures n >= 0 ==> |r| == if n < |s| then n else |s|
    ensures n < 0 ==> |r| == if |s| + n > 0 then |s| + n else 0
  {
    if n >= 0 then (if n < |s| then s[..n] else s)
    else if |s| + n > 0 then s[..|s| + n] else []
  }

  /** The line for the milestone numbered `n`. */
  function MilestoneLine(n: nat, m: SubGoal): string {
    IntToString(n) + ". [" + (if m.status == "completed" then "PASS" else "FAIL") + "] " + m.description
  }

  /** `format_completed_milestones`: the milestones before the current
      index, numbered from 1. */
  method FormatCompletedMilestones(milestones: seq<SubGoal>, currentIdx: int) returns (text: string)
    ensures PrefixSlice(milestones, currentIdx) == [] ==> text == "No milestones completed yet."
    ensures PrefixSlice(milestones, currentIdx) != [] ==> exists lines: seq<string> ::
      && |lines| == |PrefixSlice(milestones, currentIdx)|
      && (forall k :: 0 <= k < |lines| ==> lines[k] == MilestoneLine(k + 1, milestones[k]))
      && text == Join(lines, "\n")
  {
    var completed := PrefixSlice(milestones, currentIdx);
    if completed == [] {
      return "No milestones completed yet.";
    }
    assert forall k :: 0 <= k < |completed| ==> completed[k] == milestones[k];
    var lines: seq<string> := [];
    for i := 0 to |completed|
      invariant |lines| == i
      invariant forall k :: 0 <= k < i ==> lines[k] == MilestoneLine(k + 1, milestones[k])
    {
      lines := lines + [MilestoneLine(i + 1, completed[i])];
    }
    text := Join(lines, "\n");
    assert |lines| == |completed| && text == Join(lines, "\n");
  }

  /** The status tag is PASS exactly for completed milestones. */
  lemma MilestoneLineTag(n: nat, m: SubGoal)
    ensures IntToString(n) + ". [PASS] " <= MilestoneLine(n, m) <==> m.status == "completed"
  {
    var prefix := IntToString(n) + ". [";
    assert MilestoneLine(n, m)[..|prefix|] == prefix;
    if m.status != "completed" {
      assert MilestoneLine(n, m)[|prefix|] == 'F';
      assert (IntToString(n) + ". [PASS] ")[|prefix|] == 'P';
    }
  }
}
