/** Where the two scripts meet: the header that extract.py puts on top of
    `.env.example` is later filled in by create_agent.py. Every token of the
    header resolves under the table `process_template` builds, so a new
    agent's `.env.example` holds the configured values and no `{{` from the
    header. */
module EnvHeaderResolution {
  import opened Text
  import opened Template
  import opened AgentCreation
  import opened Extraction

  // The header cut at its six tokens: literal pieces and token groups.
  const Lit1: string := "# Universal ADK Starter Kit Configuration\n" + "# Project Configuration\n" + "PROJECT_ID="
  const Lit2: string := "\n" + "LOCATION="
  const Lit3: string := "\n" + "NAMESPACE="
  const Lit4: string := "\n" + "AGENT_NAME="
  const Lit5: string := "\n" + "\n" + "# Model Configuration  \n" + "MODEL_NAME="
  const Lit6: string := "\n" + "GOOGLE_GENAI_USE_VERTEXAI="
  const Lit7: string := "\n" + "\n" + "# Original configuration from source agent:\n"

  const Group1: string := "project_id"
  const Group2: string := "location" + "|default:" + "us-central1"
  const Group3: string := "namespace"
  const Group4: string := "agent_name"
  const Group5: string := "model_name" + "|default:" + "gemini-2.0-flash"
  const Group6: string := "use_vertex" + "|default:" + "true"

  // Each token of the header is the token of its group.
  lemma TokenOfGroup1() ensures Token(Group1) == "{{project_id}}" {}
  lemma TokenOfGroup2() ensures Token(Group2) == "{{location|default:us-central1}}" {}
  lemma TokenOfGroup3() ensures Token(Group3) == "{{namespace}}" {}
  lemma TokenOfGroup4() ensures Token(Group4) == "{{agent_name}}" {}
  lemma TokenOfGroup5() ensures Token(Group5) == "{{model_name|default:gemini-2.0-flash}}" {}
  lemma TokenOfGroup6() ensures Token(Group6) == "{{use_vertex|default:true}}" {}

  /** The header with six values in place of its tokens. */
  function FilledHeader(v1: string, v2: string, v3: string, v4: string, v5: string, v6: string): string
  {
    Lit1 + v1 + Lit2 + v2 + Lit3 + v3 + Lit4 + v4 + Lit5 + v5 + Lit6 + v6 + Lit7
  }

  /** The header is its pieces with the tokens between them; with `c`
      appended, regrouped to the right so that the scan can take one piece
      at a time. */
  lemma HeaderPieces(c: string)
    ensures EnvHeader + c
         == Lit1 + (Token(Group1) + (Lit2 + (Token(Group2) + (Lit3 + (Token(Group3) + (Lit4 + (Token(Group4)
            + (Lit5 + (Token(Group5) + (Lit6 + (Token(Group6) + (Lit7 + c))))))))))))
  {
    TokenOfGroup1(); TokenOfGroup2(); TokenOfGroup3(); TokenOfGroup4(); TokenOfGroup5(); TokenOfGroup6();
    RegroupHeader(
      "# Universal ADK Starter Kit Configuration\n", "# Project Configuration\n", "PROJECT_ID=",
      "{{project_id}}", "\n", "LOCATION=", "{{location|default:us-central1}}", "\n", "NAMESPACE=",
      "{{namespace}}", "\n", "AGENT_NAME=", "{{agent_name}}", "\n", "\n", "# Model Configuration  \n",
      "MODEL_NAME=", "{{model_name|default:gemini-2.0-flash}}", "\n", "GOOGLE_GENAI_USE_VERTEXAI=",
      "{{use_vertex|default:true}}", "\n", "\n", "# Original configuration from source agent:\n", c);
  }

  /** The regrouping of the header's 24 literals that `HeaderPieces` needs. */
  lemma RegroupHeader(x1: string, x2: string, x3: string, x4: string, x5: string, x6: string,
                      x7: string, x8: string, x9: string, x10: string, x11: string, x12: string,
                      x13: string, x14: string, x15: string, x16: string, x17: string, x18: string,
                      x19: string, x20: string, x21: string, x22: string, x23: string, x24: string, c: string)
    ensures x1 + x2 + x3 + x4 + x5 + x6 + x7 + x8 + x9 + x10 + x11 + x12 + x13 + x14 + x15 + x16
            + x17 + x18 + x19 + x20 + x21 + x22 + x23 + x24 + c
         == (x1 + x2 + x3) + (x4 + ((x5 + x6) + (x7 + ((x8 + x9) + (x10 + ((x11 + x12) + (x13
            + ((x14 + x15 + x16 + x17) + (x18 + ((x19 + x20) + (x21 + ((x22 + x23 + x24) + c))))))))))))
  {
  }

  lemma ReassociateValues(a1: string, a2: string, a3: string, a4: string, a5: string, a6: string, a7: string,
                          a8: string, a9: string, a10: string, a11: string, a12: string, a13: string, c: string)
    ensures a1 + (a2 + (a3 + (a4 + (a5 + (a6 + (a7 + (a8 + (a9 + (a10 + (a11 + (a12 + (a13 + c))))))))))))
         == (a1 + a2 + a3 + a4 + a5 + a6 + a7 + a8 + a9 + a10 + a11 + a12 + a13) + c
  {
  }

  /** Text without `{` cannot start a match. */
  lemma NoBraceInert(s: string)
    requires '{' !in s
    ensures Inert(s)
  {
  }

  // The literals of the header hold no `{`; the long ones one at a time.
  lemma NoBraceTitle() ensures '{' !in "# Universal ADK Starter Kit Configuration\n" {}
  lemma NoBraceProjectLine() ensures '{' !in "# Project Configuration\n" {}
  lemma NoBraceModelLine() ensures '{' !in "# Model Configuration  \n" {}
  lemma NoBraceOriginalLine() ensures '{' !in "# Original configuration from source agent:\n" {}
  lemma NoBraceKeys()
    ensures '{' !in "\n" && '{' !in "PROJECT_ID=" && '{' !in "LOCATION=" && '{' !in "NAMESPACE="
    ensures '{' !in "AGENT_NAME=" && '{' !in "MODEL_NAME=" && '{' !in "GOOGLE_GENAI_USE_VERTEXAI="
  {
  }

  lemma NoBraceInPieces(x1: string, x2: string, x3: string, x4: string)
    requires '{' !in x1 && '{' !in x2 && '{' !in x3 && '{' !in x4
    ensures '{' !in x1 + x2 && '{' !in x1 + x2 + x3 && '{' !in x1 + x2 + x3 + x4
  {
  }

  /** No literal piece holds a `{`, so none can start a match. */
  lemma PiecesInert()
    ensures '{' !in Lit1 && '{' !in Lit2 && '{' !in Lit3 && '{' !in Lit4
    ensures '{' !in Lit5 && '{' !in Lit6 && '{' !in Lit7
    ensures Inert(Lit1) && Inert(Lit2) && Inert(Lit3) && Inert(Lit4) && Inert(Lit5) && Inert(Lit6) && Inert(Lit7)
  {
    NoBraceTitle();
    NoBraceProjectLine();
    NoBraceModelLine();
    NoBraceOriginalLine();
    NoBraceKeys();
    NoBraceInPieces("# Universal ADK Starter Kit Configuration\n", "# Project Configuration\n", "PROJECT_ID=", "\n");
    NoBraceInPieces("\n", "LOCATION=", "\n", "\n");
    NoBraceInPieces("\n", "NAMESPACE=", "\n", "\n");
    NoBraceInPieces("\n", "AGENT_NAME=", "\n", "\n");
    NoBraceInPieces("\n", "\n", "# Model Configuration  \n", "MODEL_NAME=");
    NoBraceInPieces("\n", "GOOGLE_GENAI_USE_VERTEXAI=", "\n", "\n");
    NoBraceInPieces("\n", "\n", "# Original configuration from source agent:\n", "\n");
    NoBraceInert(Lit1);
    NoBraceInert(Lit2);
    NoBraceInert(Lit3);
    NoBraceInert(Lit4);
    NoBraceInert(Lit5);
    NoBraceInert(Lit6);
    NoBraceInert(Lit7);
  }

  /** A group without `|`, `}` or outer blanks is looked up as it is. */
  lemma PlainLookUp(g: string, vars: Vars)
    requires g != [] && '|' !in g && '}' !in g && !IsSpace(g[0]) && !IsSpace(g[|g| - 1])
    ensures IsGroup(g) && ReplaceVar(g, vars) == Get(vars, g, Token(g))
  {
    StripUnpadded(g);
    ReplaceVarPlain(g, vars);
  }

  /** A group `name|default:value` gives the name's value or `value`. */
  lemma DefaultLookUp(name: string, value: string, vars: Vars)
    requires name != [] && '|' !in name && '}' !in name && '}' !in value
    requires !IsSpace(name[0]) && !IsSpace(name[|name| - 1])
    ensures IsGroup(name + "|default:" + value)
    ensures ReplaceVar(name + "|default:" + value, vars) == Get(vars, name, value)
  {
    var g := name + "|default:" + value;
    assert '}' !in g by {
      forall i | 0 <= i < |g| ensures g[i] != '}' {
        if i < |name| { assert g[i] == name[i]; }
        else if i >= |name| + 9 { assert g[i] == value[i - |name| - 9]; }
      }
    }
    StripUnpadded(name);
    ReplaceVarDefault(name, value, vars);
  }

  lemma LocationLookUp(vars: Vars)
    ensures IsGroup(Group2) && ReplaceVar(Group2, vars) == Get(vars, "location", "us-central1")
  {
    DefaultLookUp("location", "us-central1", vars);
  }

  lemma ModelLookUp(vars: Vars)
    ensures IsGroup(Group5) && ReplaceVar(Group5, vars) == Get(vars, "model_name", "gemini-2.0-flash")
  {
    DefaultLookUp("model_name", "gemini-2.0-flash", vars);
  }

  lemma VertexLookUp(vars: Vars)
    ensures IsGroup(Group6) && ReplaceVar(Group6, vars) == Get(vars, "use_vertex", "true")
  {
    DefaultLookUp("use_vertex", "true", vars);
  }

  lemma ProjectLookUp(vars: Vars)
    ensures IsGroup(Group1) && ReplaceVar(Group1, vars) == Get(vars, "project_id", Token(Group1))
  {
    PlainLookUp(Group1, vars);
  }

  lemma NamespaceLookUp(vars: Vars)
    ensures IsGroup(Group3) && ReplaceVar(Group3, vars) == Get(vars, "namespace", Token(Group3))
  {
    PlainLookUp(Group3, vars);
  }

  lemma AgentNameLookUp(vars: Vars)
    ensures IsGroup(Group4) && ReplaceVar(Group4, vars) == Get(vars, "agent_name", Token(Group4))
  {
    PlainLookUp(Group4, vars);
  }

  /** What `replace_var` makes of the plain groups: a lookup of the name. */
  lemma PlainGroupsLookUp(vars: Vars)
    ensures IsGroup(Group1) && ReplaceVar(Group1, vars) == Get(vars, "project_id", Token(Group1))
    ensures IsGroup(Group3) && ReplaceVar(Group3, vars) == Get(vars, "namespace", Token(Group3))
    ensures IsGroup(Group4) && ReplaceVar(Group4, vars) == Get(vars, "agent_name", Token(Group4))
  {
    ProjectLookUp(vars);
    NamespaceLookUp(vars);
    AgentNameLookUp(vars);
  }

  /** ... and of the groups with a default: a lookup of the name, or the
      header's default. */
  lemma DefaultGroupsLookUp(vars: Vars)
    ensures IsGroup(Group2) && ReplaceVar(Group2, vars) == Get(vars, "location", "us-central1")
    ensures IsGroup(Group5) && ReplaceVar(Group5, vars) == Get(vars, "model_name", "gemini-2.0-flash")
    ensures IsGroup(Group6) && ReplaceVar(Group6, vars) == Get(vars, "use_vertex", "true")
  {
    LocationLookUp(vars);
    ModelLookUp(vars);
    VertexLookUp(vars);
  }

  /** The entries of a new agent's table that the header asks for. */
  lemma AgentTableLookups(config: Config, name: string, description: string)
    ensures var vars := AgentVars(BuildTemplateVars(config), name, description);
      && Get(vars, "project_id", Token(Group1)) == config.projectId
      && Get(vars, "location", "us-central1") == config.location
      && Get(vars, "namespace", Token(Group3)) == config.namespace
      && Get(vars, "agent_name", Token(Group4)) == name
      && Get(vars, "model_name", "gemini-2.0-flash") == config.defaultModel
      && Get(vars, "use_vertex", "true") == if config.useVertex then "true" else "false"
  {
    var base := BuildTemplateVars(config);
    assert "project_id"[0] != "agent_name"[0];
    assert "project_id"[0] != "agent_description"[0];
    assert "model_name"[0] != "agent_name"[0];
    assert "use_vertex"[0] != "agent_name"[0];
    assert base["project_id"] == config.projectId by {
      assert "project_id"[0] != "use_vertex"[0];
      assert "project_id"[0] != "model_name"[0];
    }
    assert base["model_name"] == config.defaultModel by {
      assert "model_name"[0] != "use_vertex"[0];
    }
  }

  /** A literal piece and the token after it, from the front of the text. */
  lemma PieceThenToken(pre: string, expr: string, rest: string, vars: Vars)
    requires Inert(pre) && IsGroup(expr)
    ensures Substitute(pre + (Token(expr) + rest), vars) == pre + (ReplaceVar(expr, vars) + Substitute(rest, vars))
  {
    SubstituteInertPrefix(pre, Token(expr) + rest, vars);
    SubstituteToken(expr, rest, vars);
  }

  /** Under any table, the header's tokens become their lookups (with the
      header's defaults) and the text after the header is substituted on its
      own. */
  lemma {:induction false} HeaderSubstituted(c: string, vars: Vars)
    ensures Substitute(EnvHeader + c, vars)
         == FilledHeader(ReplaceVar(Group1, vars), ReplaceVar(Group2, vars), ReplaceVar(Group3, vars),
                         ReplaceVar(Group4, vars), ReplaceVar(Group5, vars), ReplaceVar(Group6, vars))
            + Substitute(c, vars)
  {
    HeaderPieces(c);
    PiecesInert();
    PlainGroupsLookUp(vars);
    DefaultGroupsLookUp(vars);
    var r7 := Lit7 + c;
    SubstituteInertPrefix(Lit7, c, vars);
    var r6 := Token(Group6) + r7;
    PieceThenToken(Lit6, Group6, r7, vars);
    var r5 := Token(Group5) + (Lit6 + r6);
    PieceThenToken(Lit5, Group5, Lit6 + r6, vars);
    var r4 := Token(Group4) + (Lit5 + r5);
    PieceThenToken(Lit4, Group4, Lit5 + r5, vars);
    var r3 := Token(Group3) + (Lit4 + r4);
    PieceThenToken(Lit3, Group3, Lit4 + r4, vars);
    var r2 := Token(Group2) + (Lit3 + r3);
    PieceThenToken(Lit2, Group2, Lit3 + r3, vars);
    PieceThenToken(Lit1, Group1, Lit2 + r2, vars);
    ReassociateValues(Lit1, ReplaceVar(Group1, vars), Lit2, ReplaceVar(Group2, vars), Lit3, ReplaceVar(Group3, vars),
                      Lit4, ReplaceVar(Group4, vars), Lit5, ReplaceVar(Group5, vars), Lit6, ReplaceVar(Group6, vars),
                      Lit7, Substitute(c, vars));
  }

  /** Under the table of a new agent every token of the header is known:
      the configured project, location, namespace and model, the agent's
      name and the Vertex flag take their places, and no default is used. */
  lemma HeaderUnderAgentTable(config: Config, name: string, description: string, c: string)
    ensures var vars := AgentVars(BuildTemplateVars(config), name, description);
      Substitute(EnvHeader + c, vars)
      == FilledHeader(config.projectId, config.location, config.namespace, name, config.defaultModel,
                      if config.useVertex then "true" else "false")
         + Substitute(c, vars)
  {
    var vars := AgentVars(BuildTemplateVars(config), name, description);
    HeaderSubstituted(c, vars);
    PlainGroupsLookUp(vars);
    DefaultGroupsLookUp(vars);
    AgentTableLookups(config, name, description);
  }

  /** Creating an agent from a template whose `.env.example` came out of the
      extraction leaves no `{` of the header behind, provided the configured
      values and the agent name hold none (a name the rule accepts never
      does). */
  lemma HeaderLeavesNoBraces(config: Config, name: string, description: string)
    requires MatchesAgentName(name)
    requires '{' !in config.projectId && '{' !in config.location && '{' !in config.namespace
    requires '{' !in config.defaultModel
    ensures '{' !in Substitute(EnvHeader, AgentVars(BuildTemplateVars(config), name, description))
  {
    var vars := AgentVars(BuildTemplateVars(config), name, description);
    HeaderUnderAgentTable(config, name, description, "");
    assert EnvHeader + "" == EnvHeader;
    assert Substitute("", vars) == "";
    AcceptedNameHasNoTokenSyntax(name);
    var flag := if config.useVertex then "true" else "false";
    FlagWithoutBraces(config.useVertex);
    FilledWithoutBraces(config.projectId, config.location, config.namespace, name, config.defaultModel, flag);
    var filled := FilledHeader(config.projectId, config.location, config.namespace, name, config.defaultModel, flag);
    assert filled + "" == filled;
  }

  lemma FlagWithoutBraces(b: bool)
    ensures '{' !in (if b then "true" else "false")
  {
  }

  /** Values without `{` leave the filled header without `{`. */
  lemma FilledWithoutBraces(v1: string, v2: string, v3: string, v4: string, v5: string, v6: string)
    requires '{' !in v1 && '{' !in v2 && '{' !in v3 && '{' !in v4 && '{' !in v5 && '{' !in v6
    ensures '{' !in FilledHeader(v1, v2, v3, v4, v5, v6)
  {
    PiecesInert();
    NoBraceInConcat(Lit1, v1, Lit2, v2, Lit3, v3, Lit4, v4, Lit5, v5, Lit6, v6, Lit7);
  }

  lemma NoBraceInConcat(a1: string, a2: string, a3: string, a4: string, a5: string, a6: string, a7: string,
                        a8: string, a9: string, a10: string, a11: string, a12: string, a13: string)
    requires '{' !in a1 && '{' !in a2 && '{' !in a3 && '{' !in a4 && '{' !in a5 && '{' !in a6 && '{' !in a7
    requires '{' !in a8 && '{' !in a9 && '{' !in a10 && '{' !in a11 && '{' !in a12 && '{' !in a13
    ensures '{' !in a1 + a2 + a3 + a4 + a5 + a6 + a7 + a8 + a9 + a10 + a11 + a12 + a13
  {
  }
}
