/** The agent generator of create_agent.py: the agent-type table, the name
    rule, the variable table a template is filled from, the mapping of a
    template tree onto the files it produces, and the guards of
    `create_agent`. The file system is not touched here: a template tree is a
    value, and what generation does to the disk is returned as a list of
    effects in the order the script performs them. */
module AgentCreation {
  import opened Wrappers
  import opened Text
  import opened Template

  // ---------------------------------------------------------------------
  // Agent types (AGENT_TYPES)

  /** The template directory of each known agent type. */
  function TemplatePath(agentType: string): (r: Option<string>)
    ensures r.Some? <==> agentType in {"simple", "multi", "rag", "tool"}
  {
    if agentType == "simple" then Some(".starter-kit/templates/simple_agent")
    else if agentType == "multi" then Some(".starter-kit/templates/multi_agent")
    else if agentType == "rag" then Some(".starter-kit/templates/rag_agent")
    else if agentType == "tool" then Some(".starter-kit/templates/tool_agent")
    else None
  }

  predicate IsAgentType(agentType: string)
  {
    TemplatePath(agentType).Some?
  }

  // ---------------------------------------------------------------------
  // The agent-name rule: re.match(r'^[a-z][a-z0-9_]*$', name)

  predicate IsNameChar(c: char)
  {
    IsAsciiLower(c) || IsAsciiDigit(c) || c == '_'
  }

  /** The whole of `w` is `[a-z][a-z0-9_]*`. */
  ghost predicate IsIdentifier(w: string)
  {
    |w| >= 1 && IsAsciiLower(w[0]) && forall i :: 1 <= i < |w| ==> IsNameChar(w[i])
  }

  /** End of the run of `[a-z0-9_]` that starts at `k`. */
  function NameRun(s: string, k: nat): (j: nat)
    requires k <= |s|
    ensures k <= j <= |s|
    ensures j < |s| ==> !IsNameChar(s[j])
    ensures forall m :: k <= m < j ==> IsNameChar(s[m])
    decreases |s| - k
  {
    if k == |s| || !IsNameChar(s[k]) then k else NameRun(s, k + 1)
  }

  /** How `re.match` decides the name rule: `[a-z]`, then the greedy run of
      `[a-z0-9_]`, then `$`, which holds at the end of the text and also just
      before a newline that ends it. Giving characters of the run back cannot
      help, since `$` never holds in front of a character of the run. */
  function MatchesAgentName(name: string): (ok: bool)
    ensures ok <==> IsIdentifier(name)
                    || (|name| >= 2 && name[|name| - 1] == '\n' && IsIdentifier(name[..|name| - 1]))
  {
    if |name| >= 1 && IsAsciiLower(name[0]) then
      var k := NameRun(name, 1);
      assert forall i :: 1 <= i < k ==> IsNameChar(name[..k][i]);
      k == |name| || (k == |name| - 1 && name[k] == '\n')
    else
      false
  }

  /** Examples of the rule, including the trailing newline that `$` lets
      through. */
  lemma AgentNameExamples()
    ensures MatchesAgentName("my_agent") && MatchesAgentName("agent2") && MatchesAgentName("my_agent\n")
    ensures !MatchesAgentName("") && !MatchesAgentName("My_agent") && !MatchesAgentName("my-agent")
    ensures !MatchesAgentName("2agent") && !MatchesAgentName("_agent") && !MatchesAgentName("my_agent\n\n")
  {
    assert "my_agent\n"[..8] == "my_agent";
  }

  /** Every character of an accepted name is `[a-z0-9_]`, except a newline
      that may end it. */
  lemma AcceptedNameChars(name: string)
    requires MatchesAgentName(name)
    ensures forall i :: 0 <= i < |name| ==> IsNameChar(name[i]) || (i == |name| - 1 && name[i] == '\n')
  {
    if !IsIdentifier(name) {
      var w := name[..|name| - 1];
      assert forall i :: 0 <= i < |name| - 1 ==> name[i] == w[i];
    }
  }

  /** A name the rule accepts holds no brace and no `|`, so it cannot open,
      close or split a token when it is substituted. */
  lemma AcceptedNameHasNoTokenSyntax(name: string)
    requires MatchesAgentName(name)
    ensures '{' !in name && '}' !in name && '|' !in name
  {
    AcceptedNameChars(name);
  }

  // ---------------------------------------------------------------------
  // The variable table

  /** The configuration values the generator reads (`project` and `agents`
      sections of the YAML file). */
  datatype Config = Config(
    projectId: string,
    location: string,
    namespace: string,
    authorName: string,
    authorEmail: string,
    defaultModel: string,
    useVertex: bool)

  const ConfigKeys: set<string> :=
    {"project_id", "location", "namespace", "author_name", "author_email", "model_name", "use_vertex"}

  const AgentKeys: set<string> := {"agent_name", "agent_display_name", "agent_description"}

  /** `build_template_vars`: the seven configuration entries; `use_vertex` is
      `str(flag).lower()`. */
  function BuildTemplateVars(config: Config): (vars: Vars)
    ensures vars.Keys == ConfigKeys
    ensures vars["project_id"] == config.projectId && vars["location"] == config.location
    ensures vars["namespace"] == config.namespace
    ensures vars["author_name"] == config.authorName && vars["author_email"] == config.authorEmail
    ensures vars["model_name"] == config.defaultModel
    ensures vars["use_vertex"] == if config.useVertex then "true" else "false"
  {
    map[
      "project_id" := config.projectId,
      "location" := config.location,
      "namespace" := config.namespace,
      "author_name" := config.authorName,
      "author_email" := config.authorEmail,
      "model_name" := config.defaultModel,
      "use_vertex" := if config.useVertex then "true" else "false"]
  }

  /** `agent_name.replace("_", " ").title()`. */
  function DisplayName(name: string): string
  {
    Title(ReplaceChar(name, '_', ' '))
  }

  /** `agent_description or f"ADK agent for {agent_name}"`. */
  function DescriptionOrDefault(name: string, description: string): string
  {
    if description == "" then "ADK agent for " + name else description
  }

  /** The table `process_template` fills templates from: a copy of the
      configuration table with the three agent entries written over it. */
  function AgentVars(base: Vars, name: string, description: string): (vars: Vars)
    ensures vars.Keys == base.Keys + AgentKeys
    ensures vars["agent_name"] == name
    ensures vars["agent_display_name"] == DisplayName(name)
    ensures vars["agent_description"] == DescriptionOrDefault(name, description)
    ensures forall k :: k in base && k !in AgentKeys ==> vars[k] == base[k]
  {
    base + map[
      "agent_name" := name,
      "agent_display_name" := DisplayName(name),
      "agent_description" := DescriptionOrDefault(name, description)]
  }

  /** An empty description falls back to the generated one; any other is
      kept. */
  lemma DescriptionDefaulting(name: string, description: string)
    ensures description == "" ==> DescriptionOrDefault(name, description) == "ADK agent for " + name
    ensures description != "" ==> DescriptionOrDefault(name, description) == description
  {
  }

  /** For a name the rule accepts, the display name has the same length, a
      space exactly where the name has `_`, digits and a final newline kept,
      and each letter upper-cased when it starts a word (follows no letter)
      and kept lower-case otherwise. */
  lemma {:induction false} DisplayNameOfAcceptedName(name: string)
    requires MatchesAgentName(name)
    ensures var d := DisplayName(name);
      && |d| == |name|
      && (forall i :: 0 <= i < |name| ==> (d[i] == ' ' <==> name[i] == '_'))
      && (forall i :: 0 <= i < |name| && IsAsciiDigit(name[i]) ==> d[i] == name[i])
      && (forall i :: 0 <= i < |name| && name[i] == '\n' ==> d[i] == '\n')
      && (forall i :: 0 <= i < |name| && IsAsciiLower(name[i]) ==>
            d[i] == if i > 0 && IsAsciiLower(name[i - 1]) then name[i] else Upper(name[i]))
  {
    AcceptedNameChars(name);
    var r := ReplaceChar(name, '_', ' ');
    var d := Title(r);
    forall i | 0 <= i < |name| ensures d[i] == ' ' <==> name[i] == '_' {
      assert d[i] == TitleCharAt(r, i);
    }
    forall i | 0 <= i < |name| && IsAsciiLower(name[i])
      ensures d[i] == if i > 0 && IsAsciiLower(name[i - 1]) then name[i] else Upper(name[i])
    {
      assert d[i] == TitleCharAt(r, i);
      if i > 0 {
        assert IsNameChar(name[i - 1]);
        assert IsAsciiLetter(r[i - 1]) <==> IsAsciiLower(name[i - 1]);
      }
    }
    forall i | 0 <= i < |name| && (IsAsciiDigit(name[i]) || name[i] == '\n') ensures d[i] == name[i] {
      assert d[i] == TitleCharAt(r, i);
    }
  }

  /** Words are split at `_` and each starts with a capital. */
  lemma DisplayNameSplitsWords()
    ensures DisplayName("my_agent") == "My Agent"
  {
    UnderscoreToSpace();
    TitleOfTwoWords();
  }

  lemma UnderscoreToSpace()
    ensures ReplaceChar("my_agent", '_', ' ') == "my agent"
  {
    var r := ReplaceChar("my_agent", '_', ' ');
    assert r[0] == 'm' && r[1] == 'y' && r[2] == ' ' && r[3] == 'a';
    assert r[4] == 'g' && r[5] == 'e' && r[6] == 'n' && r[7] == 't';
  }

  lemma TitleOfTwoWords()
    ensures Title("my agent") == "My Agent"
  {
    var d := Title("my agent");
    assert d[0] == 'M' && d[1] == 'y' && d[2] == ' ' && d[3] == 'A';
    assert d[4] == 'g' && d[5] == 'e' && d[6] == 'n' && d[7] == 't';
  }

  /** The newline that the rule lets end a name is carried into the display
      name. */
  lemma DisplayNameKeepsNewline()
    ensures DisplayName("my_agent\n") == "My Agent\n"
  {
    UnderscoreToSpaceBeforeNewline();
    TitleBeforeNewline();
  }

  lemma UnderscoreToSpaceBeforeNewline()
    ensures ReplaceChar("my_agent\n", '_', ' ') == "my agent\n"
  {
    var r := ReplaceChar("my_agent\n", '_', ' ');
    assert r[0] == 'm' && r[1] == 'y' && r[2] == ' ' && r[3] == 'a' && r[4] == 'g';
    assert r[5] == 'e' && r[6] == 'n' && r[7] == 't' && r[8] == '\n';
  }

  lemma TitleBeforeNewline()
    ensures Title("my agent\n") == "My Agent\n"
  {
    var d := Title("my agent\n");
    assert d[0] == 'M' && d[1] == 'y' && d[2] == ' ' && d[3] == 'A' && d[4] == 'g';
    assert d[5] == 'e' && d[6] == 'n' && d[7] == 't' && d[8] == '\n';
  }

  /** A digit is not a letter, so a letter after it starts a new word. */
  lemma DisplayNameCapitalisesAfterDigit()
    ensures DisplayName("agent2x") == "Agent2X"
  {
    NoUnderscoreKept();
    TitleAfterDigit();
  }

  lemma NoUnderscoreKept()
    ensures ReplaceChar("agent2x", '_', ' ') == "agent2x"
  {
    var r := ReplaceChar("agent2x", '_', ' ');
    assert r[0] == 'a' && r[1] == 'g' && r[2] == 'e' && r[3] == 'n';
    assert r[4] == 't' && r[5] == '2' && r[6] == 'x';
  }

  lemma TitleAfterDigit()
    ensures Title("agent2x") == "Agent2X"
  {
    var d := Title("agent2x");
    assert d[0] == 'A' && d[1] == 'g' && d[2] == 'e' && d[3] == 'n';
    assert d[4] == 't' && d[5] == '2' && d[6] == 'X';
  }

  // ---------------------------------------------------------------------
  // Template trees and what copying them does

  /** A path as its components. */
  type Path = seq<string>

  /** An entry of a template directory: a file with its text, or a
      sub-directory with its entries in the order `iterdir` yields them. */
  datatype Item = File(name: string, content: string) | Dir(name: string, children: seq<Item>)

  /** One file-system effect of generation. */
  datatype Effect = MakeDir(path: Path) | WriteFile(path: Path, content: string)

  /** The destination name of a template file: a trailing `.template`
      (nine characters) is removed, any other name is kept. */
  function DestName(name: string): string
  {
    if EndsWith(name, ".template") then name[..|name| - 9] else name
  }

  /** Stripping undoes appending `.template`, and leaves other names alone. */
  lemma DestNameStripsSuffix(name: string)
    ensures DestName(name + ".template") == name
    ensures !EndsWith(name, ".template") ==> DestName(name) == name
    ensures EndsWith(name, ".template") ==> DestName(name) + ".template" == name
  {
    var t := name + ".template";
    assert t[|t| - 9..] == ".template";
    assert t[..|t| - 9] == name;
  }

  /** The relative destination of a template file at relative path `rel`:
      directory names are kept, the file name goes through `DestName`. */
  function DestRel(rel: Path): Path
    requires rel != []
  {
    rel[..|rel| - 1] + [DestName(rel[|rel| - 1])]
  }

  /** A path under a directory maps to that directory and the mapped rest. */
  lemma DestRelUnderDir(dest: Path, name: string, sub: Path)
    requires sub != []
    ensures ([name] + sub)[1..] == sub
    ensures dest + [name] + DestRel(sub) == dest + DestRel([name] + sub)
  {
    var rel := [name] + sub;
    assert rel[1..] == sub;
    assert rel[..|rel| - 1] == [name] + sub[..|sub| - 1];
    assert DestRel(rel) == [name] + DestRel(sub);
  }

  /** `_copy_template(template, dest)`: make `dest`, then handle the entries
      in order. */
  function TemplateEffects(items: seq<Item>, dest: Path, vars: Vars): seq<Effect>
  {
    [MakeDir(dest)] + ItemsEffects(items, dest, vars)
  }

  /** The effects of the loop over `items`, so far as it has got. */
  function ItemsEffects(items: seq<Item>, dest: Path, vars: Vars): seq<Effect>
    decreases items
  {
    if items == [] then []
    else ItemsEffects(items[..|items| - 1], dest, vars) + ItemEffects(items[|items| - 1], dest, vars)
  }

  /** One entry: a file is substituted and written under its destination
      name; a directory is copied recursively under its own name. */
  function ItemEffects(item: Item, dest: Path, vars: Vars): seq<Effect>
    decreases item
  {
    match item
    case File(name, content) => [WriteFile(dest + [DestName(name)], Substitute(content, vars))]
    case Dir(name, children) => [MakeDir(dest + [name])] + ItemsEffects(children, dest + [name], vars)
  }

  /** The reference reading of a template tree: it holds a file with text
      `content` at relative path `rel`. */
  ghost predicate InTree(items: seq<Item>, rel: Path, content: string)
    decreases items
  {
    exists k :: 0 <= k < |items| && InItem(items[k], rel, content)
  }

  ghost predicate InItem(item: Item, rel: Path, content: string)
    decreases item
  {
    match item
    case File(name, c) => rel == [name] && content == c
    case Dir(name, children) => |rel| >= 2 && rel[0] == name && InTree(children, rel[1..], content)
  }

  /** Every file of the template is written, substituted, at its mapped
      destination path. */
  lemma {:induction false} EveryTemplateFileWritten(items: seq<Item>, dest: Path, vars: Vars, rel: Path, content: string)
    requires InTree(items, rel, content)
    ensures rel != []
    ensures WriteFile(dest + DestRel(rel), Substitute(content, vars)) in ItemsEffects(items, dest, vars)
    decreases items
  {
    var k :| 0 <= k < |items| && InItem(items[k], rel, content);
    var n := |items| - 1;
    if k == n {
      ItemWritten(items[k], dest, vars, rel, content);
    } else {
      assert items[..n][k] == items[k];
      EveryTemplateFileWritten(items[..n], dest, vars, rel, content);
    }
  }

  lemma {:induction false} ItemWritten(item: Item, dest: Path, vars: Vars, rel: Path, content: string)
    requires InItem(item, rel, content)
    ensures rel != []
    ensures WriteFile(dest + DestRel(rel), Substitute(content, vars)) in ItemEffects(item, dest, vars)
    decreases item
  {
    match item
    case File(name, c) =>
      assert DestRel(rel) == [DestName(name)];
    case Dir(name, children) =>
      var sub := rel[1..];
      EveryTemplateFileWritten(children, dest + [name], vars, sub, content);
      assert rel == [name] + sub;
      DestRelUnderDir(dest, name, sub);
  }

  /** Nothing else is written: every write comes from a file of the template,
      at its mapped destination path, with its substituted text. */
  lemma {:induction false} OnlyTemplateFilesWritten(items: seq<Item>, dest: Path, vars: Vars, path: Path, text: string)
    requires WriteFile(path, text) in ItemsEffects(items, dest, vars)
    ensures exists rel, content :: InTree(items, rel, content) && rel != []
              && path == dest + DestRel(rel) && text == Substitute(content, vars)
    decreases items
  {
    var n := |items| - 1;
    if WriteFile(path, text) in ItemsEffects(items[..n], dest, vars) {
      OnlyTemplateFilesWritten(items[..n], dest, vars, path, text);
      var rel, content :| InTree(items[..n], rel, content) && rel != []
        && path == dest + DestRel(rel) && text == Substitute(content, vars);
      var k :| 0 <= k < n && InItem(items[..n][k], rel, content);
      assert items[k] == items[..n][k];
      assert InTree(items, rel, content);
    } else {
      var rel, content := OnlyItemFilesWritten(items[n], dest, vars, path, text);
      assert InTree(items, rel, content);
    }
  }

  lemma {:induction false} OnlyItemFilesWritten(item: Item, dest: Path, vars: Vars, path: Path, text: string)
    returns (rel: Path, content: string)
    requires WriteFile(path, text) in ItemEffects(item, dest, vars)
    ensures InItem(item, rel, content) && rel != []
    ensures path == dest + DestRel(rel) && text == Substitute(content, vars)
    decreases item
  {
    match item
    case File(name, c) =>
      rel, content := [name], c;
    case Dir(name, children) =>
      assert WriteFile(path, text) in ItemsEffects(children, dest + [name], vars);
      OnlyTemplateFilesWritten(children, dest + [name], vars, path, text);
      var sub, c :| InTree(children, sub, c) && sub != []
        && path == dest + [name] + DestRel(sub) && text == Substitute(c, vars);
      rel, content := [name] + sub, c;
      DestRelUnderDir(dest, name, sub);
  }

  // ---------------------------------------------------------------------
  // Creating an agent

  /** Why `create_agent` returned False. */
  datatype Rejection = UnknownType | InvalidName | TemplateMissing | AlreadyExists

  /** What `create_agent` did: returned False before touching the disk, or
      returned True after producing `effects` below `dest`. */
  datatype Outcome = Rejected(reason: Rejection) | Created(dest: Path, effects: seq<Effect>)

  /** `src/{namespace}/agents/{agent_name}`. */
  function AgentDest(namespace: string, name: string): Path
  {
    ["src", namespace, "agents", name]
  }

  /** The text of the package `__init__.py` written into every new agent. */
  const InitFile: string :=
    "# Agent package initialization\n"
    + "# Extracted and configured by Universal ADK Agent Starter Kit\n"
    + "\n"
    + "from .agent import root_agent\n"
    + "\n"
    + "__all__ = [\"root_agent\"]\n"

  /** First peel-off step of a slice `s[i..]` (kept apart from the scan's
      definition). */
  lemma SliceFacts(s: string, i: nat, j: nat)
    requires i < |s| && (j > 0 ==> 2 < j && i + j + 2 <= |s|)
    ensures s[i..][0] == s[i] && s[i..][1..] == s[i + 1..]
    ensures j > 0 ==> s[i..][2..j] == s[i + 2..i + j] && s[i..][j + 2..] == s[i + j + 2..]
  {
  }

  /** A token found at position `i`: its replacement is emitted and the
      scan resumes after its closing braces. */
  lemma ScanToken(s: string, i: nat, j: nat, vars: Vars)
    requires i < |s| && TokenEnd(s[i..]) == Some(j)
    ensures i + j + 2 <= |s|
    ensures Substitute(s[i..], vars) == ReplaceVar(s[i + 2..i + j], vars) + Substitute(s[i + j + 2..], vars)
  {
    SubstituteTokenStep(s[i..], vars);
    SliceFacts(s, i, j);
  }

  /** No token at position `i`: its character is emitted as it is. */
  lemma ScanChar(s: string, i: nat, vars: Vars)
    requires i < |s| && TokenEnd(s[i..]).None?
    ensures Substitute(s[i..], vars) == [s[i]] + Substitute(s[i + 1..], vars)
  {
    SubstituteNoTokenStep(s[i..], vars);
    SliceFacts(s, i, 0);
  }

  lemma ScanStart(s: string, vars: Vars)
    ensures "" + Substitute(s[0..], vars) == Substitute(s, vars)
  {
    assert s[0..] == s;
  }

  lemma ScanDone(s: string, out: string, vars: Vars)
    requires out + Substitute(s[|s|..], vars) == Substitute(s, vars)
    ensures out == Substitute(s, vars)
  {
    assert s[|s|..] == [];
    assert out + [] == out;
  }

  /** The generator object: the configuration and the table built from it,
      both fixed when it is constructed. */
  class AgentCreator {
    const config: Config
    const templateVars: Vars

    /** `__init__` after the configuration file has been loaded. */
    constructor(config: Config)
      ensures this.config == config && templateVars == BuildTemplateVars(config)
    {
      this.config := config;
      this.templateVars := BuildTemplateVars(config);
    }

    /** `process_template`: the scan of `re.sub` written as a loop over the
        text, with the agent entries written over the configuration table. */
    method ProcessTemplate(content: string, agentName: string, agentDescription: string := "")
      returns (result: string)
      ensures result == Substitute(content, AgentVars(templateVars, agentName, agentDescription))
    {
      var vars := AgentVars(templateVars, agentName, agentDescription);
      var out := "";
      var i := 0;
      ScanStart(content, vars);
      while i < |content|
        invariant 0 <= i <= |content|
        invariant out + Substitute(content[i..], vars) == Substitute(content, vars)
        decreases |content| - i
      {
        var piece, next;
        match TokenEnd(content[i..]) {
          case Some(j) =>
            ScanToken(content, i, j, vars);
            piece, next := ReplaceVar(content[i + 2..i + j], vars), i + j + 2;
          case None =>
            ScanChar(content, i, vars);
            piece, next := [content[i]], i + 1;
        }
        Regroup(out, piece, Substitute(content[next..], vars));
        out, i := out + piece, next;
      }
      ScanDone(content, out, vars);
      result := out;
    }

    /** `_copy_template`: make the destination, then for each entry in turn
        write a file's substituted text under its destination name, or copy
        a sub-directory recursively. */
    method CopyTemplate(items: seq<Item>, dest: Path, agentName: string, agentDescription: string)
      returns (effects: seq<Effect>)
      ensures effects == TemplateEffects(items, dest, AgentVars(templateVars, agentName, agentDescription))
      decreases items
    {
      ghost var vars := AgentVars(templateVars, agentName, agentDescription);
      effects := [MakeDir(dest)];
      var k := 0;
      while k < |items|
        invariant 0 <= k <= |items|
        invariant effects == [MakeDir(dest)] + ItemsEffects(items[..k], dest, vars)
        decreases |items| - k
      {
        var more: seq<Effect>;
        match items[k] {
          case File(name, content) =>
            var text := ProcessTemplate(content, agentName, agentDescription);
            more := [WriteFile(dest + [DestName(name)], text)];
          case Dir(name, children) =>
            var sub := CopyTemplate(children, dest + [name], agentName, agentDescription);
            more := sub;
        }
        assert items[..k + 1][..k] == items[..k];
        effects := effects + more;
        k := k + 1;
      }
      assert items[..k] == items;
    }

    /** `create_agent`, with the two existence checks on the disk given as
        facts: an unknown type, a name the rule refuses, a missing template
        directory or an existing destination each give False before anything
        is written; otherwise the template is copied into
        `src/{namespace}/agents/{name}` and the package `__init__.py` is
        written last. */
    method CreateAgent(agentType: string, agentName: string, agentDescription: string,
                       templateExists: bool, destExists: bool, template: seq<Item>)
      returns (outcome: Outcome)
      ensures !IsAgentType(agentType) ==> outcome == Rejected(UnknownType)
      ensures IsAgentType(agentType) && !MatchesAgentName(agentName) ==> outcome == Rejected(InvalidName)
      ensures IsAgentType(agentType) && MatchesAgentName(agentName) && !templateExists
              ==> outcome == Rejected(TemplateMissing)
      ensures IsAgentType(agentType) && MatchesAgentName(agentName) && templateExists && destExists
              ==> outcome == Rejected(AlreadyExists)
      ensures outcome.Created? <==>
              IsAgentType(agentType) && MatchesAgentName(agentName) && templateExists && !destExists
      ensures outcome.Created? ==>
              var dest := AgentDest(config.namespace, agentName);
              && outcome.dest == dest
              && outcome.effects
                 == TemplateEffects(template, dest, AgentVars(templateVars, agentName, agentDescription))
                    + [WriteFile(dest + ["__init__.py"], InitFile)]
    {
      if !IsAgentType(agentType) {
        return Rejected(UnknownType);
      }
      if !MatchesAgentName(agentName) {
        return Rejected(InvalidName);
      }
      if !templateExists {
        return Rejected(TemplateMissing);
      }
      var dest := AgentDest(config.namespace, agentName);
      if destExists {
        return Rejected(AlreadyExists);
      }
      var effects := CopyTemplate(template, dest, agentName, agentDescription);
      effects := effects + [WriteFile(dest + ["__init__.py"], InitFile)];
      return Created(dest, effects);
    }
  }
}
