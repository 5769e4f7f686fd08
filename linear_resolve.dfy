/**
 * Free text to Linear ids: `resolveTeamId` (src/linear.js, src/linear/teams.js),
 * `resolveProjectId`, `resolveAssigneeId` and `resolveIssueId`
 * (whatsapp-bot-app/src/linear/issues.js; the assignee resolver also in test.js).
 *
 * Each resolver is a function of the list the GraphQL query returned. Absent
 * and empty string fields are both "" here, since the code only tests their
 * truthiness. A resolver's `null` is `None`.
 */
module LinearResolve {
  import opened Base
  import opened JsStrings
  import opened JsArrays
  import opened Uuid

  datatype Team = Team(id: string, name: string, key: string)

  /** `teamId` is the `team.id` of the project, when the query returned a team. */
  datatype Project = Project(id: string, name: string, teamId: Option<string>)

  datatype User = User(id: string, name: string, displayName: string, email: string)

  datatype Issue = Issue(id: string, identifier: string)

  /** `input.trim().toLowerCase()`. */
  function Needle(input: string): string {
    ToLower(Trim(input))
  }

  /** Whether a resolver must fetch a list: the input is truthy and not UUID-shaped. */
  predicate NeedsLookup(input: string) {
    input != "" && !IsLikelyUuid(input)
  }

  // ---------------------------------------------------------------- teams

  predicate KeyMatches(t: Team, needle: string) {
    t.key != "" && ToLower(t.key) == needle
  }

  predicate NameMatches(t: Team, needle: string) {
    t.name != "" && ToLower(t.name) == needle
  }

  predicate PartialTeamMatch(t: Team, needle: string) {
    (t.name != "" && Includes(ToLower(t.name), needle)) ||
    (t.key != "" && Includes(ToLower(t.key), needle))
  }

  /** `resolveTeamId`: key, then name, then substring of name or key; first team in list order. */
  function ResolveTeamId(input: string, teams: seq<Team>): Option<string> {
    if input == "" then None
    else if IsLikelyUuid(input) then Some(input)
    else
      var needle := Needle(input);
      match Find(teams, t => KeyMatches(t, needle))
      case Some(t) => Some(t.id)
      case None =>
        match Find(teams, t => NameMatches(t, needle))
        case Some(t) => Some(t.id)
        case None =>
          match Find(teams, t => PartialTeamMatch(t, needle))
          case Some(t) => Some(t.id)
          case None => None
  }

  /** A falsy input resolves to nothing and a UUID to itself, whatever the team list holds. */
  lemma TeamPassthrough(input: string, teams: seq<Team>, others: seq<Team>)
    ensures input == "" ==> ResolveTeamId(input, teams) == None
    ensures IsLikelyUuid(input) ==> ResolveTeamId(input, teams) == ResolveTeamId(input, others) == Some(input)
  {
  }

  /** The first team whose key equals the needle wins over every other tier. */
  lemma KeyTierWins(input: string, teams: seq<Team>, i: nat)
    requires NeedsLookup(input)
    requires i < |teams| && KeyMatches(teams[i], Needle(input))
    requires forall j :: 0 <= j < i ==> !KeyMatches(teams[j], Needle(input))
    ensures ResolveTeamId(input, teams) == Some(teams[i].id)
  {
    FindFirst(teams, t => KeyMatches(t, Needle(input)), i);
  }

  /** Without a key match, the first team whose name equals the needle wins. */
  lemma NameTierWins(input: string, teams: seq<Team>, i: nat)
    requires NeedsLookup(input)
    requires forall j :: 0 <= j < |teams| ==> !KeyMatches(teams[j], Needle(input))
    requires i < |teams| && NameMatches(teams[i], Needle(input))
    requires forall j :: 0 <= j < i ==> !NameMatches(teams[j], Needle(input))
    ensures ResolveTeamId(input, teams) == Some(teams[i].id)
  {
    FindFirst(teams, t => NameMatches(t, Needle(input)), i);
  }

  /** Without an exact match, the first team whose name or key contains the needle wins. */
  lemma PartialTierWins(input: string, teams: seq<Team>, i: nat)
    requires NeedsLookup(input)
    requires forall j :: 0 <= j < |teams| ==> !KeyMatches(teams[j], Needle(input)) && !NameMatches(teams[j], Needle(input))
    requires i < |teams| && PartialTeamMatch(teams[i], Needle(input))
    requires forall j :: 0 <= j < i ==> !PartialTeamMatch(teams[j], Needle(input))
    ensures ResolveTeamId(input, teams) == Some(teams[i].id)
  {
    FindFirst(teams, t => PartialTeamMatch(t, Needle(input)), i);
  }

  /** A team matched exactly by key or name is also matched by substring. */
  lemma ExactIsPartial(t: Team, needle: string)
    requires KeyMatches(t, needle) || NameMatches(t, needle)
    ensures PartialTeamMatch(t, needle)
  {
    IncludesSelf(needle);
  }

  /** A looked-up team is found exactly when some team's name or key contains the needle. */
  lemma TeamNotFoundIff(input: string, teams: seq<Team>)
    requires NeedsLookup(input)
    ensures ResolveTeamId(input, teams) == None <==>
            forall j :: 0 <= j < |teams| ==> !PartialTeamMatch(teams[j], Needle(input))
  {
    var needle := Needle(input);
    if exists j :: 0 <= j < |teams| && PartialTeamMatch(teams[j], needle) {
      var j :| 0 <= j < |teams| && PartialTeamMatch(teams[j], needle);
      assert (t => PartialTeamMatch(t, needle))(teams[j]);
    } else {
      forall j | 0 <= j < |teams|
        ensures !KeyMatches(teams[j], needle) && !NameMatches(teams[j], needle)
      {
        if KeyMatches(teams[j], needle) || NameMatches(teams[j], needle) {
          ExactIsPartial(teams[j], needle);
        }
      }
    }
  }

  /** A resolved team id is the input UUID or the id of a fetched team. */
  lemma ResolvedTeamIsKnown(input: string, teams: seq<Team>)
    requires ResolveTeamId(input, teams).Some?
    ensures var id := ResolveTeamId(input, teams).value;
            (IsLikelyUuid(input) && id == input) || exists t :: t in teams && t.id == id
  {
  }

  // ---------------------------------------------------------------- projects

  /** The words `/\b(the|project|on|in|for|to|a|an)\b/g` removes. */
  predicate IsStopWord(w: string) {
    w == "the" || w == "project" || w == "on" || w == "in" || w == "for" || w == "to" || w == "a" || w == "an"
  }

  /** Length of the longest prefix of `s` made of `\w` characters. */
  function WordRunLength(s: string): (n: nat)
    ensures n <= |s|
  {
    if s != [] && IsWordChar(s[0]) then 1 + WordRunLength(s[1..]) else 0
  }

  /** The run is made of word characters, and what follows it is not one. */
  lemma {:induction false} WordRunChars(s: string)
    ensures var n := WordRunLength(s);
            (forall i :: 0 <= i < n ==> IsWordChar(s[i])) && (n < |s| ==> !IsWordChar(s[n]))
  {
    if s != [] && IsWordChar(s[0]) {
      WordRunChars(s[1..]);
      assert forall i :: 1 <= i <= |s[1..]| ==> s[i] == s[1..][i - 1];
    }
  }

  /**
   * `s.replace(/\b(the|project|on|in|for|to|a|an)\b/g, " ")`. Both `\b` hold
   * exactly when a maximal run of word characters is one of the stop words,
   * so the scan replaces whole runs and leaves every other character alone.
   */
  function StripStopWords(s: string): string
    decreases |s|
  {
    if s == [] then []
    else if IsWordChar(s[0]) then
      var n := WordRunLength(s);
      (if IsStopWord(s[..n]) then " " else s[..n]) + StripStopWords(s[n..])
    else [s[0]] + StripStopWords(s[1..])
  }

  /** A word run is replaced only as a whole: a stop word becomes a space, any other word stays. */
  lemma StripWord(w: string)
    requires w != [] && forall i :: 0 <= i < |w| ==> IsWordChar(w[i])
    ensures StripStopWords(w) == if IsStopWord(w) then " " else w
  {
    var n := WordRunLength(w);
    WordRunChars(w);
    assert n == |w|;
    assert w[..n] == w;
    assert w[n..] == [];
  }

  /** Appending text after a word boundary does not lengthen the leading word run. */
  lemma WordRunAppend(a: string, b: string)
    requires a == [] || b == [] || !IsWordChar(a[|a| - 1]) || !IsWordChar(b[0])
    requires a != [] && IsWordChar(a[0])
    ensures WordRunLength(a + b) == WordRunLength(a)
  {
    var n := WordRunLength(a);
    WordRunChars(a);
    WordRunChars(a + b);
    assert forall i :: 0 <= i < |a| ==> (a + b)[i] == a[i];
    assert n == |a| ==> IsWordChar(a[|a| - 1]);
    assert n == |a| && b != [] ==> (a + b)[n] == b[0];
  }

  /** At a word boundary the replacement works on each side separately. */
  lemma {:induction false} StripAppend(a: string, b: string)
    requires a == [] || b == [] || !IsWordChar(a[|a| - 1]) || !IsWordChar(b[0])
    ensures StripStopWords(a + b) == StripStopWords(a) + StripStopWords(b)
    decreases |a|
  {
    if a == [] {
      assert a + b == b;
    } else {
      var n := if IsWordChar(a[0]) then WordRunLength(a) else 1;
      assert a[n..] == [] || a[n..][|a[n..]| - 1] == a[|a| - 1];
      StripAppend(a[n..], b);
      if IsWordChar(a[0]) {
        StripAppendWord(a, b);
      } else {
        StripAppendOther(a, b);
      }
    }
  }

  /** The step of `StripAppend` at a word run: the run is replaced the same way with or without `b` behind it. */
  lemma StripAppendWord(a: string, b: string)
    requires a == [] || b == [] || !IsWordChar(a[|a| - 1]) || !IsWordChar(b[0])
    requires a != [] && IsWordChar(a[0])
    requires var n := WordRunLength(a);
             StripStopWords(a[n..] + b) == StripStopWords(a[n..]) + StripStopWords(b)
    ensures StripStopWords(a + b) == StripStopWords(a) + StripStopWords(b)
  {
    var n := WordRunLength(a);
    var rest := a[n..];
    var head := if IsStopWord(a[..n]) then " " else a[..n];
    assert StripStopWords(a) == head + StripStopWords(rest) by {
      StripWordStep(a);
    }
    assert StripStopWords(a + b) == head + StripStopWords(rest + b) by {
      WordRunAppend(a, b);
      SliceAppend(a, b, n);
      StripWordStep(a + b);
    }
    ConcatAssoc(head, StripStopWords(rest), StripStopWords(b));
  }

  /** The step of `StripAppend` at any other character: it is kept as it is. */
  lemma StripAppendOther(a: string, b: string)
    requires a != [] && !IsWordChar(a[0])
    requires StripStopWords(a[1..] + b) == StripStopWords(a[1..]) + StripStopWords(b)
    ensures StripStopWords(a + b) == StripStopWords(a) + StripStopWords(b)
  {
    var rest := a[1..];
    assert StripStopWords(a + b) == [a[0]] + StripStopWords(rest + b) by {
      SliceAppend(a, b, 1);
    }
    ConcatAssoc([a[0]], StripStopWords(rest), StripStopWords(b));
  }

  /** One step of the scan at a word character: the whole run is replaced, then the scan goes on. */
  lemma StripWordStep(s: string)
    requires s != [] && IsWordChar(s[0])
    ensures var n := WordRunLength(s);
            StripStopWords(s) == (if IsStopWord(s[..n]) then " " else s[..n]) + StripStopWords(s[n..])
  {
  }

  /** The cleaned needle: trimmed, lower-cased, stop words out, white space collapsed, trimmed. */
  function ProjectNeedle(input: string): string {
    Trim(CollapseSpaces(StripStopWords(ToLower(Trim(input)))))
  }

  /** Two words separated by a single space are stripped one at a time. */
  lemma StripTwoWords(w: string, rest: string)
    requires w != [] && forall i :: 0 <= i < |w| ==> IsWordChar(w[i])
    ensures StripStopWords(w + " " + rest) == (if IsStopWord(w) then " " else w) + " " + StripStopWords(rest)
  {
    StripWord(w);
    StripAppend(w, " " + rest);
    StripAppend(" ", rest);
    assert StripStopWords(" ") == " ";
    ConcatAssoc(w, " ", rest);
  }

  // The worked examples below take their literals as parameters, so that the
  // verifier rewrites them one step at a time rather than all at once.

  /** Stop-word stripping of "the atlas project": both stop words become spaces. */
  lemma StripExample(the: string, atlas: string, project: string, sp: string)
    requires the == "the" && atlas == "atlas" && project == "project" && sp == "  "
    ensures StripStopWords(the + " " + atlas + " " + project) == sp + atlas + sp
  {
    StripLastTwoWords(atlas, project);
    assert IsStopWord(the);
    StripTwoWords(the, atlas + " " + project);
    assert the + " " + atlas + " " + project == the + " " + (atlas + " " + project);
    assert " " + " " + (atlas + " " + " ") == sp + atlas + sp;
  }

  /** Stop-word stripping of "atlas project": the name stays, the stop word becomes a space. */
  lemma StripLastTwoWords(atlas: string, project: string)
    requires atlas == "atlas" && project == "project"
    ensures StripStopWords(atlas + " " + project) == atlas + " " + " "
  {
    assert !IsStopWord(atlas) && IsStopWord(project);
    StripWord(project);
    StripTwoWords(atlas, project);
  }

  /** Two spaces before a non-space run become one. */
  lemma CollapseTwoSpaces(sp: string, rest: string)
    requires sp == "  " && (rest == [] || !IsSpace(rest[0]))
    ensures CollapseSpaces(sp + rest) == " " + CollapseSpaces(rest)
  {
    assert (sp + rest)[1..] == " " + rest;
    assert TrimStart(" " + rest) == rest by {
      assert (" " + rest)[1..] == rest;
    }
  }

  /** Each double space of "  atlas  " collapses to one. */
  lemma CollapseExample(sp: string, atlas: string)
    requires sp == "  " && atlas == "atlas"
    ensures CollapseSpaces(sp + atlas + sp) == " atlas "
  {
    CollapseTwoSpaces(sp, []);
    assert sp + [] == sp;
    CollapseNoSpace(atlas, sp);
    CollapseTwoSpaces(sp, atlas + sp);
    assert sp + atlas + sp == sp + (atlas + sp);
  }

  /** "the ATLAS project" needs no trimming and lower-cases to "the atlas project". */
  lemma LowerExample(input: string, the: string, upper: string, atlas: string, project: string)
    requires the == "the" && upper == "ATLAS" && atlas == "atlas" && project == "project"
    requires input == the + " " + upper + " " + project
    ensures ToLower(Trim(input)) == the + " " + atlas + " " + project
  {
    assert input[0] == the[0] && input[|input| - 1] == project[|project| - 1];
    TrimUnspaced(input);
    ToLowerJoin(the + " " + upper, project);
    ToLowerJoin(the, upper);
    LowerWords(the, upper, atlas, project);
  }

  /** The words of the examples, lower-cased one at a time. */
  lemma LowerWords(the: string, upper: string, atlas: string, project: string)
    requires the == "the" && upper == "ATLAS" && atlas == "atlas" && project == "project"
    ensures ToLower(upper) == atlas && ToLower(the) == the && ToLower(project) == project
  {
  }

  /** Trimming " atlas " leaves "atlas". */
  lemma TrimExample(c: string, atlas: string)
    requires c == " atlas " && atlas == "atlas"
    ensures Trim(c) == atlas
  {
    assert TrimStart(c) == c[1..];
    assert TrimEnd(c[1..]) == atlas;
  }

  /** The cleaning the resolver's own comment gives as its example: "the ATLAS project" becomes "atlas". */
  lemma ProjectNeedleExample(input: string, the: string, upper: string, atlas: string, project: string, sp: string)
    requires the == "the" && upper == "ATLAS" && atlas == "atlas" && project == "project" && sp == "  "
    requires input == the + " " + upper + " " + project
    ensures ProjectNeedle(input) == atlas
  {
    LowerExample(input, the, upper, atlas, project);
    StripExample(the, atlas, project, sp);
    CollapseExample(sp, atlas);
    TrimExample(" atlas ", atlas);
    ProjectNeedleSteps(input, the + " " + atlas + " " + project, sp + atlas + sp, " atlas ", atlas);
  }

  /** The cleaning, one stage at a time. */
  lemma ProjectNeedleSteps(input: string, lowered: string, stripped: string, collapsed: string, needle: string)
    requires ToLower(Trim(input)) == lowered && StripStopWords(lowered) == stripped
    requires CollapseSpaces(stripped) == collapsed && Trim(collapsed) == needle
    ensures ProjectNeedle(input) == needle
  {
  }

  /** `(p.name || "").toLowerCase()`. */
  function ProjectName(p: Project): string {
    ToLower(p.name)
  }

  predicate TokensMatch(name: string, tokens: seq<string>) {
    |tokens| > 0 && forall k :: 0 <= k < |tokens| ==> Includes(name, tokens[k])
  }

  /** The three tiers of `resolveProjectId` over a cleaned needle; first project in list order. */
  function ProjectByNeedle(needle: string, projects: seq<Project>): Option<string> {
    match Find(projects, p => ProjectName(p) == needle)
    case Some(p) => Some(p.id)
    case None =>
      match Find(projects, p => Includes(ProjectName(p), needle))
      case Some(p) => Some(p.id)
      case None =>
        var tokens := Tokens(needle);
        match Find(projects, p => TokensMatch(ProjectName(p), tokens))
        case Some(p) => Some(p.id)
        case None => None
  }

  /** `resolveProjectId`: a UUID passes through; other text is cleaned and matched by name. */
  function ResolveProjectId(input: string, projects: seq<Project>): Option<string> {
    if input == "" then None
    else if IsLikelyUuid(input) then Some(input)
    else ProjectByNeedle(ProjectNeedle(input), projects)
  }

  lemma ProjectPassthrough(input: string, projects: seq<Project>, others: seq<Project>)
    ensures input == "" ==> ResolveProjectId(input, projects) == None
    ensures IsLikelyUuid(input) ==> ResolveProjectId(input, projects) == ResolveProjectId(input, others) == Some(input)
  {
  }

  /** The first project whose lower-cased name equals the cleaned needle wins. */
  lemma ProjectExactWins(needle: string, projects: seq<Project>, i: nat)
    requires i < |projects| && ProjectName(projects[i]) == needle
    requires forall j :: 0 <= j < i ==> ProjectName(projects[j]) != needle
    ensures ProjectByNeedle(needle, projects) == Some(projects[i].id)
  {
    FindFirst(projects, p => ProjectName(p) == needle, i);
  }

  /** Without an exact name, the first project whose name contains the needle wins. */
  lemma ProjectContainsWins(needle: string, projects: seq<Project>, i: nat)
    requires forall j :: 0 <= j < |projects| ==> ProjectName(projects[j]) != needle
    requires i < |projects| && Includes(ProjectName(projects[i]), needle)
    requires forall j :: 0 <= j < i ==> !Includes(ProjectName(projects[j]), needle)
    ensures ProjectByNeedle(needle, projects) == Some(projects[i].id)
  {
    FindFirst(projects, p => Includes(ProjectName(p), needle), i);
  }

  /**
   * Without a substring match, the first project whose name contains every token
   * of the needle wins; the token tier needs at least one token.
   */
  lemma ProjectTokensWin(needle: string, projects: seq<Project>, i: nat)
    requires forall j :: 0 <= j < |projects| ==> !Includes(ProjectName(projects[j]), needle)
    requires i < |projects| && TokensMatch(ProjectName(projects[i]), Tokens(needle))
    requires forall j :: 0 <= j < i ==> !TokensMatch(ProjectName(projects[j]), Tokens(needle))
    ensures ProjectByNeedle(needle, projects) == Some(projects[i].id)
  {
    forall j | 0 <= j < |projects| ensures ProjectName(projects[j]) != needle {
      IncludesSelf(needle);
    }
    FindFirst(projects, p => TokensMatch(ProjectName(p), Tokens(needle)), i);
  }

  /** A needle that no name contains and that has no tokens (it is blank) finds nothing. */
  lemma BlankNeedleFindsNothing(needle: string, projects: seq<Project>)
    requires Tokens(needle) == []
    requires forall j :: 0 <= j < |projects| ==> !Includes(ProjectName(projects[j]), needle)
    ensures ProjectByNeedle(needle, projects) == None
  {
    forall j | 0 <= j < |projects| ensures ProjectName(projects[j]) != needle {
      IncludesSelf(needle);
    }
  }

  /** "the project" needs no trimming and is already lower case. */
  lemma LowerStopWordsExample(input: string, the: string, project: string)
    requires the == "the" && project == "project" && input == the + " " + project
    ensures ToLower(Trim(input)) == the + " " + project
  {
    assert input[0] == the[0] && input[|input| - 1] == project[|project| - 1];
    TrimUnspaced(input);
    ToLowerJoin(the, project);
    LowerWords(the, "ATLAS", "atlas", project);
  }

  /** Both words of "the project" are stop words, so three spaces remain. */
  lemma StripStopWordsExample(the: string, project: string)
    requires the == "the" && project == "project"
    ensures StripStopWords(the + " " + project) == "   "
  {
    assert IsStopWord(the) && IsStopWord(project);
    StripWord(project);
    StripTwoWords(the, project);
  }

  /** Blank text collapses to one space, which trims to nothing. */
  lemma BlankCollapsesToEmpty(st: string)
    requires st == "   "
    ensures Trim(CollapseSpaces(st)) == ""
  {
    assert TrimStart(st[1..]) == [];
    assert CollapseSpaces(st) == " ";
  }

  /**
   * An input made only of stop words cleans to the empty needle: "the project"
   * becomes "".
   */
  lemma StopWordsOnlyNeedle(input: string, the: string, project: string)
    requires the == "the" && project == "project" && input == the + " " + project
    ensures NeedsLookup(input)
    ensures ProjectNeedle(input) == ""
  {
    LowerStopWordsExample(input, the, project);
    StripStopWordsExample(the, project);
    BlankCollapsesToEmpty(StripStopWords(ToLower(Trim(input))));
  }

  /**
   * As written, the empty needle is contained in every name, so a blank needle
   * picks the first project of the list (when every project has a name).
   */
  lemma BlankNeedlePicksFirst(input: string, projects: seq<Project>)
    requires NeedsLookup(input) && ProjectNeedle(input) == ""
    requires projects != [] && forall j :: 0 <= j < |projects| ==> projects[j].name != ""
    ensures ResolveProjectId(input, projects) == Some(projects[0].id)
  {
    forall j | 0 <= j < |projects| ensures ProjectName(projects[j]) != "" {
      assert |ProjectName(projects[j])| == |projects[j].name|;
    }
    ProjectContainsWins("", projects, 0);
  }

  /**
   * `resolveProjectId` with the evidently intended guard: a needle that cleans
   * to nothing resolves to no project.
   */
  function ResolveProjectIdChecked(input: string, projects: seq<Project>): Option<string> {
    if input == "" then None
    else if IsLikelyUuid(input) then Some(input)
    else if ProjectNeedle(input) == "" then None
    else ProjectByNeedle(ProjectNeedle(input), projects)
  }

  /** A project found by name matches the needle: its name contains it, or contains each of its tokens. */
  lemma ProjectByNeedleMatches(needle: string, projects: seq<Project>)
    requires ProjectByNeedle(needle, projects).Some?
    ensures exists p :: p in projects && p.id == ProjectByNeedle(needle, projects).value &&
                        (Includes(ProjectName(p), needle) || TokensMatch(ProjectName(p), Tokens(needle)))
  {
    var r := ProjectByNeedle(needle, projects);
    match Find(projects, p => ProjectName(p) == needle)
    case Some(p) =>
      IncludesSelf(needle);
      assert p in projects && p.id == r.value && Includes(ProjectName(p), needle);
    case None =>
  }

  /**
   * With the guard, a looked-up project is one of the fetched projects whose
   * name matches a non-empty needle; the same needle without the guard is not
   * rejected.
   */
  lemma CheckedProjectMatchesNeedle(input: string, projects: seq<Project>)
    requires NeedsLookup(input) && ResolveProjectIdChecked(input, projects).Some?
    ensures ProjectNeedle(input) != ""
    ensures exists p :: p in projects && p.id == ResolveProjectIdChecked(input, projects).value &&
                        (Includes(ProjectName(p), ProjectNeedle(input)) ||
                         TokensMatch(ProjectName(p), Tokens(ProjectNeedle(input))))
  {
    ProjectByNeedleMatches(ProjectNeedle(input), projects);
  }

  /** The guard changes nothing for a needle that keeps some text. */
  lemma CheckedAgreesOnNonBlank(input: string, projects: seq<Project>)
    requires input == "" || IsLikelyUuid(input) || ProjectNeedle(input) != ""
    ensures ResolveProjectIdChecked(input, projects) == ResolveProjectId(input, projects)
  {
  }

  /** A project found by name is one of the fetched projects. */
  lemma ProjectByNeedleIsKnown(needle: string, projects: seq<Project>)
    requires ProjectByNeedle(needle, projects).Some?
    ensures exists p :: p in projects && p.id == ProjectByNeedle(needle, projects).value
  {
  }

  /** A resolved project id is the input UUID or the id of a fetched project. */
  lemma ResolvedProjectIsKnown(input: string, projects: seq<Project>)
    requires ResolveProjectId(input, projects).Some?
    ensures var id := ResolveProjectId(input, projects).value;
            (IsLikelyUuid(input) && id == input) || exists p :: p in projects && p.id == id
  {
    if !IsLikelyUuid(input) {
      ProjectByNeedleIsKnown(ProjectNeedle(input), projects);
    }
  }

  // ---------------------------------------------------------------- users

  predicate EmailMatches(u: User, needle: string) {
    u.email != "" && ToLower(u.email) == needle
  }

  predicate DisplayNameMatches(u: User, needle: string) {
    u.displayName != "" && ToLower(u.displayName) == needle
  }

  predicate UserNameMatches(u: User, needle: string) {
    u.name != "" && ToLower(u.name) == needle
  }

  /** `[name, displayName, email]`, lower-cased, with the empty ones filtered out. */
  function Fields(u: User): seq<string> {
    Filter([ToLower(u.name), ToLower(u.displayName), ToLower(u.email)], f => f != "")
  }

  /** The partial tier: a field contains the needle, the needle contains a field, or a token is in a field. */
  predicate PartialUserMatch(u: User, needle: string, tokens: seq<string>) {
    (exists f :: f in Fields(u) && Includes(f, needle)) ||
    (exists f :: f in Fields(u) && Includes(needle, f)) ||
    (exists t, f :: t in tokens && f in Fields(u) && Includes(f, t))
  }

  /** `resolveAssigneeId`: email, then display name, then name, then partial; first user in list order. */
  function ResolveAssigneeId(input: string, users: seq<User>): Option<string> {
    if input == "" then None
    else if IsLikelyUuid(input) then Some(input)
    else UserByNeedle(Needle(input), users)
  }

  /** The four tiers of `resolveAssigneeId` for a lowered, trimmed needle. */
  function UserByNeedle(needle: string, users: seq<User>): Option<string> {
    match Find(users, u => EmailMatches(u, needle))
    case Some(u) => Some(u.id)
    case None =>
      match Find(users, u => DisplayNameMatches(u, needle))
      case Some(u) => Some(u.id)
      case None =>
        match Find(users, u => UserNameMatches(u, needle))
        case Some(u) => Some(u.id)
        case None =>
          var tokens := Tokens(needle);
          match Find(users, u => PartialUserMatch(u, needle, tokens))
          case Some(u) => Some(u.id)
          case None => None
  }

  lemma AssigneePassthrough(input: string, users: seq<User>, others: seq<User>)
    ensures input == "" ==> ResolveAssigneeId(input, users) == None
    ensures IsLikelyUuid(input) ==> ResolveAssigneeId(input, users) == ResolveAssigneeId(input, others) == Some(input)
  {
  }

  /** The exact tiers in order: an email match beats display name, which beats name. */
  lemma AssigneeExactTiers(input: string, users: seq<User>, i: nat)
    requires NeedsLookup(input) && i < |users|
    requires forall j :: 0 <= j < i ==>
               !EmailMatches(users[j], Needle(input)) && !DisplayNameMatches(users[j], Needle(input)) &&
               !UserNameMatches(users[j], Needle(input))
    ensures EmailMatches(users[i], Needle(input)) ==> ResolveAssigneeId(input, users) == Some(users[i].id)
    ensures ((forall j :: 0 <= j < |users| ==> !EmailMatches(users[j], Needle(input))) &&
             DisplayNameMatches(users[i], Needle(input))) ==> ResolveAssigneeId(input, users) == Some(users[i].id)
    ensures ((forall j :: 0 <= j < |users| ==> !EmailMatches(users[j], Needle(input)) &&
                                               !DisplayNameMatches(users[j], Needle(input))) &&
             UserNameMatches(users[i], Needle(input))) ==> ResolveAssigneeId(input, users) == Some(users[i].id)
  {
    UserExactTiers(Needle(input), users, i);
  }

  lemma UserExactTiers(needle: string, users: seq<User>, i: nat)
    requires i < |users|
    requires forall j :: 0 <= j < i ==>
               !EmailMatches(users[j], needle) && !DisplayNameMatches(users[j], needle) &&
               !UserNameMatches(users[j], needle)
    ensures EmailMatches(users[i], needle) ==> UserByNeedle(needle, users) == Some(users[i].id)
    ensures ((forall j :: 0 <= j < |users| ==> !EmailMatches(users[j], needle)) &&
             DisplayNameMatches(users[i], needle)) ==> UserByNeedle(needle, users) == Some(users[i].id)
    ensures ((forall j :: 0 <= j < |users| ==> !EmailMatches(users[j], needle) && !DisplayNameMatches(users[j], needle)) &&
             UserNameMatches(users[i], needle)) ==> UserByNeedle(needle, users) == Some(users[i].id)
  {
    if EmailMatches(users[i], needle) {
      FindFirst(users, u => EmailMatches(u, needle), i);
    }
    if (forall j :: 0 <= j < |users| ==> !EmailMatches(users[j], needle)) && DisplayNameMatches(users[i], needle) {
      assert Find(users, u => EmailMatches(u, needle)) == None by {
        FindNone(users, u => EmailMatches(u, needle));
      }
      FindFirst(users, u => DisplayNameMatches(u, needle), i);
    }
    if (forall j :: 0 <= j < |users| ==> !EmailMatches(users[j], needle) && !DisplayNameMatches(users[j], needle)) &&
       UserNameMatches(users[i], needle) {
      assert Find(users, u => EmailMatches(u, needle)) == None by {
        FindNone(users, u => EmailMatches(u, needle));
      }
      assert Find(users, u => DisplayNameMatches(u, needle)) == None by {
        FindNone(users, u => DisplayNameMatches(u, needle));
      }
      FindFirst(users, u => UserNameMatches(u, needle), i);
    }
  }

  /** With no exact match anywhere, the first user matched partially wins. */
  lemma AssigneePartialWins(input: string, users: seq<User>, i: nat)
    requires NeedsLookup(input) && i < |users|
    requires forall j :: 0 <= j < |users| ==>
               !EmailMatches(users[j], Needle(input)) && !DisplayNameMatches(users[j], Needle(input)) &&
               !UserNameMatches(users[j], Needle(input))
    requires PartialUserMatch(users[i], Needle(input), Tokens(Needle(input)))
    requires forall j :: 0 <= j < i ==> !PartialUserMatch(users[j], Needle(input), Tokens(Needle(input)))
    ensures ResolveAssigneeId(input, users) == Some(users[i].id)
  {
    UserPartialWins(Needle(input), users, i);
  }

  lemma UserPartialWins(needle: string, users: seq<User>, i: nat)
    requires i < |users|
    requires forall j :: 0 <= j < |users| ==>
               !EmailMatches(users[j], needle) && !DisplayNameMatches(users[j], needle) && !UserNameMatches(users[j], needle)
    requires PartialUserMatch(users[i], needle, Tokens(needle))
    requires forall j :: 0 <= j < i ==> !PartialUserMatch(users[j], needle, Tokens(needle))
    ensures UserByNeedle(needle, users) == Some(users[i].id)
  {
    assert Find(users, u => EmailMatches(u, needle)) == None by {
      FindNone(users, u => EmailMatches(u, needle));
    }
    assert Find(users, u => DisplayNameMatches(u, needle)) == None by {
      FindNone(users, u => DisplayNameMatches(u, needle));
    }
    assert Find(users, u => UserNameMatches(u, needle)) == None by {
      FindNone(users, u => UserNameMatches(u, needle));
    }
    FindFirst(users, u => PartialUserMatch(u, needle, Tokens(needle)), i);
  }

  /** The partial tier only looks at non-empty fields: a user with no fields never matches. */
  lemma EmptyFieldsNeverMatch(u: User, needle: string, tokens: seq<string>)
    requires u.name == "" && u.displayName == "" && u.email == ""
    ensures !PartialUserMatch(u, needle, tokens)
  {
    assert ToLower(u.name) == "" && ToLower(u.displayName) == "" && ToLower(u.email) == "";
  }

  /**
   * A field that contains the needle, that the needle contains, or that
   * contains one of the tokens makes the user a partial match.
   */
  lemma PartialUserMatchWitness(u: User, needle: string, tokens: seq<string>, f: string)
    requires f in [ToLower(u.name), ToLower(u.displayName), ToLower(u.email)] && f != ""
    requires Includes(f, needle) || Includes(needle, f) || exists t :: t in tokens && Includes(f, t)
    ensures PartialUserMatch(u, needle, tokens)
  {
    assert f in Fields(u);
  }

  /** A resolved assignee id is the input UUID or the id of a fetched user. */
  lemma ResolvedAssigneeIsKnown(input: string, users: seq<User>)
    requires ResolveAssigneeId(input, users).Some?
    ensures var id := ResolveAssigneeId(input, users).value;
            (IsLikelyUuid(input) && id == input) || exists u :: u in users && u.id == id
  {
    if NeedsLookup(input) {
      UserByNeedleIsKnown(Needle(input), users);
    }
  }

  lemma UserByNeedleIsKnown(needle: string, users: seq<User>)
    requires UserByNeedle(needle, users).Some?
    ensures exists u :: u in users && u.id == UserByNeedle(needle, users).value
  {
  }

  // ---------------------------------------------------------------- issues

  /**
   * `resolveIssueId`: a UUID is returned as it is; otherwise the id of the first
   * search hit. `hits` is the `issues` field of the search reply, absent when
   * the search failed.
   */
  function ResolveIssueId(input: string, hits: Option<seq<Issue>>): (r: Option<string>)
    ensures IsLikelyUuid(input) ==> r == Some(input)
    ensures !IsLikelyUuid(input) ==> (r.Some? <==> hits.Some? && hits.value != [])
    ensures !IsLikelyUuid(input) && r.Some? ==> r.value == hits.value[0].id
  {
    if IsLikelyUuid(input) then Some(input)
    else if hits.Some? && hits.value != [] then Some(hits.value[0].id)
    else None
  }
}
