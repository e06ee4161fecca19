/** The `{{...}}` substitution of `AgentCreator.process_template`
    (create_agent.py): the regular expression `\{\{([^}]+)\}\}` is looked for
    from left to right; every match is handed to the callback `replace_var`,
    whose result takes the match's place, and scanning resumes right after
    the match, so replacement text is never scanned again. */
module Template {
  import opened Wrappers
  import opened Text

  /** The variable table: template variable name to its value. */
  type Vars = map<string, string>

  /** `vars.get(key, fallback)`. */
  function Get(vars: Vars, key: string, fallback: string): string
  {
    if key in vars then vars[key] else fallback
  }

  /** The regular expression `\{\{([^}]+)\}\}` matches `s[..j + 2]`, read off
      the pattern: two `{`, one or more characters other than `}` (the group
      `s[2..j]`), then two `}`. */
  ghost predicate MatchesTokenUpTo(s: string, j: int)
  {
    && 2 < j && j + 1 < |s|
    && s[0] == '{' && s[1] == '{'
    && (forall m :: 2 <= m < j ==> s[m] != '}')
    && s[j] == '}' && s[j + 1] == '}'
  }

  /** Where a match starting at the front of `s` ends: `Some(j)` when
      `s[..j + 2]` is a token. Since `[^}]+` cannot run past a `}`, its
      greedy run stops at the first `}` and backtracking cannot help, so
      there is at most one such `j`. */
  function TokenEnd(s: string): (r: Option<nat>)
    ensures r.Some? ==> 2 < r.value && r.value + 1 < |s|
  {
    if 2 <= |s| && s[0] == '{' && s[1] == '{' then
      var j := IndexFrom(s, '}', 2);
      if 2 < j && j + 1 < |s| && s[j + 1] == '}' then Some(j) else None
    else None
  }

  /** `TokenEnd` finds exactly the matches of the pattern: a match ending
      at `j` exists iff `TokenEnd` returns `j`. */
  lemma TokenEndIsRegexMatch(s: string, j: int)
    ensures TokenEnd(s) == Some(j) <==> MatchesTokenUpTo(s, j)
  {
    if MatchesTokenUpTo(s, j) {
      var k := IndexFrom(s, '}', 2);
      assert k == j;
    }
  }

  /** The callback `replace_var`, given the group `expr` of a match whose
      whole text is `{{expr}}`. A group holding `|` is split once, at its
      first `|`; when the part after it starts with `default:` the result is
      the stripped name's value or the text after `default:`. In every other
      case the whole stripped group is looked up and, failing that, the match
      is put back as it was. */
  function ReplaceVar(expr: string, vars: Vars): string
  {
    var bar := IndexFrom(expr, '|', 0);
    if HasDefaultClause(expr) then
      Get(vars, Strip(expr[..bar]), expr[bar + 9..])
    else
      Get(vars, Strip(expr), Token(expr))
  }

  /** The group has a `|` and the text after its first `|` starts with
      `default:`. */
  predicate HasDefaultClause(expr: string)
  {
    var bar := IndexFrom(expr, '|', 0);
    bar < |expr| && StartsWith(expr[bar + 1..], "default:")
  }

  /** `re.sub(r'\{\{([^}]+)\}\}', replace_var, s)`: the reference definition,
      one step of the scan per call. */
  function Substitute(s: string, vars: Vars): string
    decreases |s|
  {
    if s == [] then []
    else match TokenEnd(s)
      case Some(j) => ReplaceVar(s[2..j], vars) + Substitute(s[j + 2..], vars)
      case None => [s[0]] + Substitute(s[1..], vars)
  }

  /** The token text `{{expr}}`. */
  function Token(expr: string): string
  {
    "{{" + expr + "}}"
  }

  /** `s` holds the two characters `{{` at `i`. */
  predicate OpensAt(s: string, i: int)
  {
    0 <= i && i + 1 < |s| && s[i] == '{' && s[i + 1] == '{'
  }

  /** No match can start inside `pre`, whatever follows it: it holds no `{{`
      and does not end in `{`. */
  predicate Inert(pre: string)
  {
    (forall i :: 0 <= i < |pre| ==> !OpensAt(pre, i))
    && (pre == [] || pre[|pre| - 1] != '{')
  }

  /** A group the pattern accepts: not empty, and no `}` in it. */
  predicate IsGroup(expr: string)
  {
    expr != [] && '}' !in expr
  }

  // ---------------------------------------------------------------------
  // The scan

  /** Text that contains no `{{` comes out unchanged. */
  lemma {:induction false} SubstituteWithoutOpen(s: string, vars: Vars)
    requires forall i :: 0 <= i < |s| ==> !OpensAt(s, i)
    ensures Substitute(s, vars) == s
  {
    if s != [] {
      assert !OpensAt(s, 0);
      assert TokenEnd(s).None?;
      forall i | 0 <= i < |s[1..]| ensures !OpensAt(s[1..], i) {
        assert !OpensAt(s, i + 1);
      }
      SubstituteWithoutOpen(s[1..], vars);
    }
  }

  /** Text that contains no `}` comes out unchanged: a `{{` without closing
      braces is not a token. */
  lemma {:induction false} SubstituteWithoutClose(s: string, vars: Vars)
    requires '}' !in s
    ensures Substitute(s, vars) == s
  {
    if s != [] {
      assert TokenEnd(s).None? by {
        if 2 <= |s| && s[0] == '{' && s[1] == '{' {
          assert IndexFrom(s, '}', 2) == |s|;
        }
      }
      assert '}' !in s[1..] by {
        forall i | 0 <= i < |s[1..]| ensures s[1..][i] != '}' {
          assert s[1..][i] == s[i + 1];
        }
      }
      SubstituteWithoutClose(s[1..], vars);
    }
  }

  /** One step of the scan where no token starts at the front. */
  lemma SubstituteNoTokenStep(s: string, vars: Vars)
    requires s != [] && TokenEnd(s).None?
    ensures Substitute(s, vars) == [s[0]] + Substitute(s[1..], vars)
  {
  }

  lemma SubstituteTokenStep(s: string, vars: Vars)
    requires TokenEnd(s).Some?
    ensures var j := TokenEnd(s).value;
      Substitute(s, vars) == ReplaceVar(s[2..j], vars) + Substitute(s[j + 2..], vars)
  {
  }

  /** Sequence facts used to peel the first character off `a + b`, kept
      apart so that the scan's definition is not in scope while they are
      proved. */
  lemma PeelFirst(a: string, b: string, y: string)
    requires a != []
    ensures (a + b)[0] == a[0] && (a + b)[1..] == a[1..] + b
    ensures [a[0]] + (a[1..] + y) == a + y
  {
  }

  /** Text in front that no match can start in is copied through, and the
      rest is substituted on its own. */
  lemma {:induction false} SubstituteInertPrefix(pre: string, rest: string, vars: Vars)
    requires Inert(pre)
    ensures Substitute(pre + rest, vars) == pre + Substitute(rest, vars)
  {
    if pre == [] {
      assert pre + rest == rest;
    } else {
      var s := pre + rest;
      PeelFirst(pre, rest, Substitute(rest, vars));
      assert TokenEnd(s).None? by {
        if |pre| >= 2 {
          assert !OpensAt(pre, 0);
          assert s[1] == pre[1];
        }
      }
      SubstituteNoTokenStep(s, vars);
      assert Inert(pre[1..]) by {
        forall i | 0 <= i < |pre[1..]| ensures !OpensAt(pre[1..], i) {
          assert !OpensAt(pre, i + 1);
        }
      }
      SubstituteInertPrefix(pre[1..], rest, vars);
    }
  }

  /** A token at the front is handed whole to `replace_var`; its result is
      placed verbatim and scanning resumes after the closing braces. */
  lemma SubstituteToken(expr: string, rest: string, vars: Vars)
    requires IsGroup(expr)
    ensures Substitute(Token(expr) + rest, vars) == ReplaceVar(expr, vars) + Substitute(rest, vars)
  {
    var s := Token(expr) + rest;
    var j := |expr| + 2;
    assert MatchesTokenUpTo(s, j) by {
      forall m | 2 <= m < j ensures s[m] != '}' {
        assert s[m] == expr[m - 2];
      }
    }
    assert TokenEnd(s) == Some(j);
    assert s[2..j] == expr;
    assert s[j + 2..] == rest;
  }

  /** `{{` followed by `}` is no token (the group would be empty): the
      four characters `{{}}` pass through. */
  lemma EmptyBracesPassThrough(rest: string, vars: Vars)
    ensures Substitute("{{}}" + rest, vars) == "{{}}" + Substitute(rest, vars)
  {
    var s := "{{}}" + rest;
    EmptyBracesShape(rest, Substitute(rest, vars));
    assert TokenEnd(s) == None by {
      assert IndexFrom(s, '}', 2) == 2;
    }
    SubstituteNoTokenStep(s, vars);
    assert Inert("{}}");
    SubstituteInertPrefix("{}}", rest, vars);
  }

  lemma EmptyBracesShape(rest: string, y: string)
    ensures var s := "{{}}" + rest;
      (|s| >= 4 && s[0] == '{' && s[1] == '{' && s[2] == '}'
       && s[1..] == "{}}" + rest && "{" + ("{}}" + y) == "{{}}" + y)
  {
  }

  /** When the first `}` of `s`, at `j`, is not followed by another `}`,
      no token starts before it, and everything up to and including it
      passes through: an opening `{{` whose first `}` is single is no token. */
  lemma {:induction false} SingleClosePassThrough(s: string, j: nat, vars: Vars)
    requires j < |s| && s[j] == '}' && forall m :: 0 <= m < j ==> s[m] != '}'
    requires j + 1 == |s| || s[j + 1] != '}'
    ensures Substitute(s, vars) == s[..j + 1] + Substitute(s[j + 1..], vars)
  {
    assert TokenEnd(s).None? by {
      if 2 <= |s| && s[0] == '{' && s[1] == '{' {
        assert IndexFrom(s, '}', 2) == j;
      }
    }
    SubstituteNoTokenStep(s, vars);
    if j > 0 {
      var t := s[1..];
      assert forall m :: 0 <= m < j - 1 ==> t[m] != '}';
      SingleClosePassThrough(t, j - 1, vars);
      PeelUpTo(s, j, Substitute(s[j + 1..], vars));
    }
  }

  lemma PeelUpTo(s: string, j: nat, y: string)
    requires 0 < j < |s|
    ensures s[1..][j - 1 + 1..] == s[j + 1..]
    ensures [s[0]] + (s[1..][..j - 1 + 1] + y) == s[..j + 1] + y
  {
    assert [s[0]] + s[1..][..j] == s[..j + 1];
  }

  // ---------------------------------------------------------------------
  // The callback

  /** A group without `|` is looked up as a whole, stripped; an unknown
      name gives back the whole match. */
  lemma ReplaceVarPlain(expr: string, vars: Vars)
    requires '|' !in expr
    ensures ReplaceVar(expr, vars) == if Strip(expr) in vars then vars[Strip(expr)] else Token(expr)
  {
    assert IndexFrom(expr, '|', 0) == |expr|;
  }

  /** `name|default:value` gives the stripped name's value if it has one and
      otherwise `value` exactly as written, `|` and blanks included: the split
      happens at the first `|` only. */
  lemma ReplaceVarDefault(name: string, value: string, vars: Vars)
    requires '|' !in name
    ensures ReplaceVar(name + "|default:" + value, vars)
         == if Strip(name) in vars then vars[Strip(name)] else value
  {
    var expr := name + "|default:" + value;
    var bar := IndexFrom(expr, '|', 0);
    assert expr[|name|] == '|';
    assert bar == |name| by {
      forall i | 0 <= i < |name| ensures expr[i] != '|' {
        assert expr[i] == name[i];
      }
    }
    assert expr[bar + 1..] == "default:" + value;
    assert expr[..bar] == name;
    assert expr[bar + 9..] == value;
  }

  /** A group whose first `|` is not followed by `default:` is treated like
      one without `|`: the whole stripped group is looked up, and an unknown
      one gives back the whole match. */
  lemma ReplaceVarPipeWithoutDefault(name: string, tail: string, vars: Vars)
    requires '|' !in name && !StartsWith(tail, "default:")
    ensures var expr := name + "|" + tail;
      ReplaceVar(expr, vars) == if Strip(expr) in vars then vars[Strip(expr)] else Token(expr)
  {
    var expr := name + "|" + tail;
    assert expr[|name|] == '|';
    assert IndexFrom(expr, '|', 0) == |name| by {
      forall i | 0 <= i < |name| ensures expr[i] != '|' {
        assert expr[i] == name[i];
      }
    }
    assert expr[|name| + 1..] == tail;
  }

  // ---------------------------------------------------------------------
  // What a template author sees

  lemma Regroup(a: string, b: string, c: string)
    ensures a + b + c == a + (b + c)
  {
  }

  /** A token `{{e}}` without `|` whose stripped name is in the table becomes
      exactly that value: the text before it is untouched and the value is
      not scanned again, whatever it contains. */
  lemma KnownVariableReplaced(pre: string, expr: string, post: string, vars: Vars)
    requires Inert(pre) && IsGroup(expr) && '|' !in expr && Strip(expr) in vars
    ensures Substitute(pre + Token(expr) + post, vars) == pre + vars[Strip(expr)] + Substitute(post, vars)
  {
    Regroup(pre, Token(expr), post);
    SubstituteInertPrefix(pre, Token(expr) + post, vars);
    SubstituteToken(expr, post, vars);
    ReplaceVarPlain(expr, vars);
    Regroup(pre, vars[Strip(expr)], Substitute(post, vars));
  }

  /** A token without a `default:` clause whose stripped name is not in the
      table stays byte for byte as it was. */
  lemma UnknownVariablePreserved(pre: string, expr: string, post: string, vars: Vars)
    requires Inert(pre) && IsGroup(expr) && Strip(expr) !in vars && !HasDefaultClause(expr)
    ensures Substitute(pre + Token(expr) + post, vars) == pre + Token(expr) + Substitute(post, vars)
  {
    Regroup(pre, Token(expr), post);
    SubstituteInertPrefix(pre, Token(expr) + post, vars);
    SubstituteToken(expr, post, vars);
    Regroup(pre, Token(expr), Substitute(post, vars));
  }

  /** `{{name|default:value}}` becomes the stripped name's value if it is in the
      table, and otherwise `value` verbatim. */
  lemma DefaultClauseApplied(pre: string, name: string, value: string, post: string, vars: Vars)
    requires Inert(pre) && '|' !in name && '}' !in name && '}' !in value
    ensures Substitute(pre + Token(name + "|default:" + value) + post, vars)
         == pre + (if Strip(name) in vars then vars[Strip(name)] else value) + Substitute(post, vars)
  {
    var expr := name + "|default:" + value;
    assert '}' !in expr by {
      forall i | 0 <= i < |expr| ensures expr[i] != '}' {
        if i < |name| { assert expr[i] == name[i]; }
        else if i >= |name| + 9 { assert expr[i] == value[i - |name| - 9]; }
      }
    }
    Regroup(pre, Token(expr), post);
    SubstituteInertPrefix(pre, Token(expr) + post, vars);
    SubstituteToken(expr, post, vars);
    ReplaceVarDefault(name, value, vars);
    Regroup(pre, if Strip(name) in vars then vars[Strip(name)] else value, Substitute(post, vars));
  }

  lemma HelloShape()
    ensures "Hello {{name|default:world}}" == "Hello " + Token("name" + "|default:" + "world") + ""
    ensures Inert("Hello ") && "Hello " + "world" + "" == "Hello world" && "Hello " + "Ada" + "" == "Hello Ada"
  {
  }

  /** Two worked examples: `Hello {{name|default:world}}` gives
      `Hello world` with an empty table and `Hello Ada` when `name` is
      `Ada`. */
  lemma HelloExamples()
    ensures Substitute("Hello {{name|default:world}}", map[]) == "Hello world"
    ensures Substitute("Hello {{name|default:world}}", map["name" := "Ada"]) == "Hello Ada"
  {
    HelloShape();
    StripUnpadded("name");
    DefaultClauseApplied("Hello ", "name", "world", "", map[]);
    DefaultClauseApplied("Hello ", "name", "world", "", map["name" := "Ada"]);
  }
}
