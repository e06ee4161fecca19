/** The extraction script extract.py: the table of files it pulls out of the
    upstream repositories, the attribution banner it puts in front of each
    extracted file, the configuration header it puts in front of
    `.env.example`, and the dispatch that decides what happens to each table
    entry. Reading and writing files is not modelled: the text read from a
    source file is a parameter, and what the script would write is the
    result. The four regular-expression rewrites are parameters as well. */
module Extraction {
  import opened Wrappers
  import opened Text

  // ---------------------------------------------------------------------
  // The extraction table (EXTRACTIONS)

  /** One entry of the table: where to read, where to write, which
      transform to apply and which upstream path to credit. */
  datatype Extraction = Extraction(source: string, dest: string, transform: EntryTransform, attribution: string)

  /** The transform named by an entry: one of the names the dispatch tests
      for, or any other name, kept as written. */
  datatype Transform =
    | MakeConfigurable | TemplatizePyproject | TemplatizeReadme | EnvConfigurable | TemplatizeMakefile
    | CopyDirectory | CopyTerraform
    | OtherTransform(name: string)

  /** The names the dispatch compares an entry's transform with. */
  const KnownNames: set<string> := {
    "make_configurable", "templatize_pyproject", "templatize_readme", "make_env_configurable",
    "templatize_makefile", "copy_directory", "copy_terraform"}

  /** The transforms a name in the table can stand for: a name the dispatch
      knows is always its own constructor, so `OtherTransform` only ever
      carries a name outside `KnownNames`. */
  type EntryTransform = t: Transform | !t.OtherTransform? || t.name !in KnownNames
    witness MakeConfigurable

  /** The name written in the table. */
  function TransformName(t: Transform): string
  {
    match t
    case MakeConfigurable => "make_configurable"
    case TemplatizePyproject => "templatize_pyproject"
    case TemplatizeReadme => "templatize_readme"
    case EnvConfigurable => "make_env_configurable"
    case TemplatizeMakefile => "templatize_makefile"
    case CopyDirectory => "copy_directory"
    case CopyTerraform => "copy_terraform"
    case OtherTransform(name) => name
  }

  /** Which branch of the dispatch a name selects: the string comparisons of
      `process_extraction`, in its order. */
  function ParseTransform(name: string): (t: EntryTransform)
    ensures TransformName(t) == name
    ensures t.OtherTransform? <==> name !in KnownNames
  {
    if name == "copy_directory" then CopyDirectory
    else if name == "copy_terraform" then CopyTerraform
    else if name == "make_configurable" then MakeConfigurable
    else if name == "templatize_pyproject" then TemplatizePyproject
    else if name == "templatize_readme" then TemplatizeReadme
    else if name == "make_env_configurable" then EnvConfigurable
    else if name == "templatize_makefile" then TemplatizeMakefile
    else OtherTransform(name)
  }

  /** A transform is recovered from its name. */
  lemma TransformNameRoundTrip(t: EntryTransform)
    ensures ParseTransform(TransformName(t)) == t
  {
    assert "copy_terraform"[5] != "copy_directory"[5];
    assert "templatize_readme"[11] != "make_configurable"[11];
  }

  // ---------------------------------------------------------------------
  // Attribution

  /** How a file type takes comments, as far as the banner goes. */
  datatype CommentStyle = HashComments | HtmlComments | NoComments

  /** `.py`, `.yaml`, `.yml` and `.toml` take `#` comments, `.md` takes HTML
      comments, and every other extension (the empty one included) gets no
      banner. */
  function CommentStyleOf(fileType: string): CommentStyle
  {
    if fileType == ".py" || fileType in [".yaml", ".yml"] || fileType == ".toml" then HashComments
    else if fileType == ".md" then HtmlComments
    else NoComments
  }

  /** The banner: three comment lines naming the upstream path, the kit and
      the upstream URL, then a blank line; nothing at all for a file type
      without a comment style. */
  function Banner(style: CommentStyle, attribution: string): string
  {
    match style
    case HashComments =>
      "# Extracted from " + attribution + "\n"
      + "# Part of the Universal ADK Agent Starter Kit\n"
      + "# Original source: https://github.com/" + attribution + "\n"
      + "\n"
    case HtmlComments =>
      "<!-- Extracted from " + attribution + " -->\n"
      + "<!-- Part of the Universal ADK Agent Starter Kit -->\n"
      + "<!-- Original source: https://github.com/" + attribution + " -->\n"
      + "\n"
    case NoComments => ""
  }

  /** `add_attribution`, branch for branch: each commented type has its own
      literal text, and any other type gives the content back. */
  function AddAttribution(content: string, fileType: string, attribution: string): (r: string)
    ensures r == Banner(CommentStyleOf(fileType), attribution) + content
  {
    if fileType == ".py" then Banner(HashComments, attribution) + content
    else if fileType in [".yaml", ".yml"] then Banner(HashComments, attribution) + content
    else if fileType == ".md" then Banner(HtmlComments, attribution) + content
    else if fileType == ".toml" then Banner(HashComments, attribution) + content
    else content
  }

  /** Only the style without comments has an empty banner. */
  lemma BannerNonEmpty(style: CommentStyle, attribution: string)
    ensures Banner(style, attribution) == [] <==> style == NoComments
  {
  }

  lemma AppendParts(b: string, c: string)
    ensures |b + c| == |b| + |c| && (b + c)[|b|..] == c && (b + c)[..|b|] == b
  {
  }

  /** The original content is always the tail of the result, and the result
      is the content alone exactly when the type has no comment style. */
  lemma AttributionKeepsContent(content: string, fileType: string, attribution: string)
    ensures EndsWith(AddAttribution(content, fileType, attribution), content)
    ensures AddAttribution(content, fileType, attribution) == content <==> CommentStyleOf(fileType) == NoComments
  {
    var b := Banner(CommentStyleOf(fileType), attribution);
    AppendParts(b, content);
    BannerNonEmpty(CommentStyleOf(fileType), attribution);
  }

  /** Taking the banner off again: `Some` of what follows the banner when the
      text starts with it, and `None` otherwise. */
  function RemoveAttribution(text: string, fileType: string, attribution: string): (r: Option<string>)
    ensures r.Some? ==> AddAttribution(r.value, fileType, attribution) == text
  {
    var b := Banner(CommentStyleOf(fileType), attribution);
    if StartsWith(text, b) then
      assert b + text[|b|..] == text;
      Some(text[|b|..])
    else None
  }

  /** Removing the banner undoes adding it, for every content, type and
      attribution. */
  lemma AttributionRoundTrip(content: string, fileType: string, attribution: string)
    ensures RemoveAttribution(AddAttribution(content, fileType, attribution), fileType, attribution) == Some(content)
  {
    var b := Banner(CommentStyleOf(fileType), attribution);
    var r := AddAttribution(content, fileType, attribution);
    assert r[..|b|] == b;
    assert r[|b|..] == content;
  }

  // ---------------------------------------------------------------------
  // The .env.example header

  /** The configuration header `make_env_configurable` puts on top of the
      upstream `.env.example`. The line after the blank line carries two
      trailing blanks, as in the script. */
  const EnvHeader: string :=
    "# Universal ADK Starter Kit Configuration\n"
    + "# Project Configuration\n"
    + "PROJECT_ID=" + "{{project_id}}" + "\n"
    + "LOCATION=" + "{{location|default:us-central1}}" + "\n"
    + "NAMESPACE=" + "{{namespace}}" + "\n"
    + "AGENT_NAME=" + "{{agent_name}}" + "\n"
    + "\n"
    + "# Model Configuration  \n"
    + "MODEL_NAME=" + "{{model_name|default:gemini-2.0-flash}}" + "\n"
    + "GOOGLE_GENAI_USE_VERTEXAI=" + "{{use_vertex|default:true}}" + "\n"
    + "\n"
    + "# Original configuration from source agent:\n"

  /** `make_env_configurable`: the header, then the upstream text untouched,
      which starts on a line of its own. */
  function MakeEnvConfigurable(content: string): (r: string)
    ensures |r| == |EnvHeader| + |content|
    ensures r[..|EnvHeader|] == EnvHeader && r[|EnvHeader|..] == content
  {
    EnvHeader + content
  }

  /** The header ends its last line, so the upstream text starts on a line
      of its own. */
  lemma HeaderEndsLine()
    ensures EndsWith(EnvHeader, "\n")
  {
    var last := "# Original configuration from source agent:\n";
    assert EnvHeader[|EnvHeader| - |last|..] == last;
  }

  // ---------------------------------------------------------------------
  // Path.suffix

  /** The last component of a path: the text after its last `/`. */
  function PathName(path: string): string
  {
    var i := LastIndexBefore(path, '/', |path|);
    path[i + 1..]
  }

  /** The name is a tail of the path with no `/` in it, and it is the whole
      path or follows a `/`. */
  lemma PathNameIsLastComponent(path: string)
    ensures var name := PathName(path);
      && '/' !in name && EndsWith(path, name)
      && (|name| < |path| ==> path[|path| - |name| - 1] == '/')
  {
    var i := LastIndexBefore(path, '/', |path|);
    LastIndexBeforeFacts(path, '/', |path|);
    var name := path[i + 1..];
    assert |path| - |name| == i + 1;
    forall m | 0 <= m < |name| ensures name[m] != '/' {
      assert name[m] == path[i + 1 + m];
    }
  }

  /** `PurePath.suffix` of a last component: from its last `.` to the end,
      provided that `.` is neither the first nor the last character; the
      empty text otherwise. */
  function NameSuffix(name: string): string
  {
    var i := LastIndexBefore(name, '.', |name|);
    if 0 < i < |name| - 1 then name[i..] else ""
  }

  /** There is no suffix exactly when the name ends in a dot or has no dot
      after its first character; a suffix is a dot and at least one more
      character, is a tail of the name shorter than it, and holds no other
      dot. */
  lemma NameSuffixFacts(name: string)
    ensures var r := NameSuffix(name);
      && (r == "" <==> (|name| >= 1 && name[|name| - 1] == '.') || (forall k :: 0 < k < |name| ==> name[k] != '.'))
      && (r != "" ==> && |r| >= 2 && |r| < |name| && r[0] == '.' && EndsWith(name, r)
                      && (forall k :: 1 <= k < |r| ==> r[k] != '.'))
  {
    var i := LastIndexBefore(name, '.', |name|);
    LastIndexBeforeFacts(name, '.', |name|);
    if 0 < i < |name| - 1 {
      assert forall k :: 1 <= k < |name| - i ==> name[i..][k] == name[i + k];
    }
  }

  /** `Path(path).suffix`. */
  function PathSuffix(path: string): string
  {
    NameSuffix(PathName(path))
  }

  /** The name starts after the last `/`. */
  lemma NameAfterSlash(path: string, k: nat)
    requires k < |path| && path[k] == '/' && forall m :: k < m < |path| ==> path[m] != '/'
    ensures PathName(path) == path[k + 1..]
  {
    LastIndexBeforeFacts(path, '/', |path|);
  }

  /** The suffix starts at the last `.`, when that is inside the name. */
  lemma SuffixAtDot(name: string, k: nat)
    requires 0 < k < |name| - 1 && name[k] == '.' && forall m :: k < m < |name| ==> name[m] != '.'
    ensures NameSuffix(name) == name[k..]
  {
    LastIndexBeforeFacts(name, '.', |name|);
  }

  /** The name of a path joined under a directory is what follows the
      directory. */
  lemma PathNameOfJoin(dir: string, name: string)
    requires |dir| > 0 && dir[|dir| - 1] == '/' && '/' !in name
    ensures PathName(dir + name) == name
  {
    var p := dir + name;
    assert forall m :: |dir| <= m < |p| ==> p[m] == name[m - |dir|];
    NameAfterSlash(p, |dir| - 1);
    assert p[|dir|..] == name;
  }

  /** A nonempty stem followed by one extension has that extension as its
      suffix, whatever dots the stem holds. */
  lemma SuffixOfJoin(stem: string, ext: string)
    requires |stem| > 0 && |ext| >= 2 && ext[0] == '.' && forall k :: 1 <= k < |ext| ==> ext[k] != '.'
    ensures NameSuffix(stem + ext) == ext
  {
    var n := stem + ext;
    assert forall m :: |stem| <= m < |n| ==> n[m] == ext[m - |stem|];
    SuffixAtDot(n, |stem|);
    assert n[|stem|..] == ext;
  }

  /** A name without a dot has no suffix. */
  lemma NoDotNoSuffix(name: string)
    requires '.' !in name
    ensures NameSuffix(name) == ""
  {
    LastIndexBeforeFacts(name, '.', |name|);
  }

  /** The suffix of a file `stem + ext` under a directory is `ext`. */
  lemma PathSuffixOfJoin(dir: string, stem: string, ext: string)
    requires |dir| > 0 && dir[|dir| - 1] == '/' && '/' !in stem && '/' !in ext
    requires |stem| > 0 && |ext| >= 2 && ext[0] == '.' && forall k :: 1 <= k < |ext| ==> ext[k] != '.'
    ensures PathSuffix(dir + (stem + ext)) == ext
  {
    PathNameOfJoin(dir, stem + ext);
    SuffixOfJoin(stem, ext);
  }

  /** A file under a directory whose name has no dot has no suffix. */
  lemma PathSuffixOfPlainName(dir: string, name: string)
    requires |dir| > 0 && dir[|dir| - 1] == '/' && '/' !in name && '.' !in name
    ensures PathSuffix(dir + name) == ""
  {
    PathNameOfJoin(dir, name);
    NoDotNoSuffix(name);
  }

  /** A name that is only a dotted word, or ends in a dot, has no suffix. */
  lemma DotEdgeSuffixes()
    ensures NameSuffix(".env") == "" && NameSuffix("archive.") == "" && NameSuffix("") == ""
  {
    NameSuffixFacts(".env");
    NameSuffixFacts("archive.");
  }

  // ---------------------------------------------------------------------
  // The dispatch of process_extraction

  /** The four rewrites by regular expression, which the model treats as
      given functions. */
  datatype Rewrites = Rewrites(
    makeConfigurable: string -> string,
    templatizePyproject: string -> string,
    templatizeReadme: string -> string,
    templatizeMakefile: string -> string)

  /** The transform of a single-file entry: the named rewrite, or nothing
      for any other name (`add_attribution_only` among them). */
  function ApplyTransform(transform: EntryTransform, content: string, rx: Rewrites): (r: string)
    requires !transform.CopyDirectory? && !transform.CopyTerraform?
    ensures transform.OtherTransform? ==> r == content
    ensures transform == EnvConfigurable ==> r == MakeEnvConfigurable(content)
  {
    match transform
    case MakeConfigurable => rx.makeConfigurable(content)
    case TemplatizePyproject => rx.templatizePyproject(content)
    case TemplatizeReadme => rx.templatizeReadme(content)
    case EnvConfigurable => MakeEnvConfigurable(content)
    case TemplatizeMakefile => rx.templatizeMakefile(content)
    case OtherTransform(_) => content
  }

  /** What `process_extraction` does with one entry. */
  datatype Action =
    | CopyTree(from: string, to: string, attribution: string)  // the copy_directory branch
    | CopyTerraformTree(from: string, to: string)              // copy_terraform
    | WriteText(to: string, text: string)                      // a single file written
    | ReadFailed                                               // the read raised; nothing written

  /** `process_extraction`; `content` is what reading the source file gives,
      `None` when the read fails (the error is reported and swallowed).
      The two directory transforms are dispatched first; any other entry is
      one file, rewritten by its transform and then given the banner that
      the suffix of its source path selects. */
  function ProcessExtraction(e: Extraction, content: Option<string>, rx: Rewrites): (a: Action)
    ensures e.transform == CopyDirectory ==> a == CopyTree(e.source, e.dest, e.attribution)
    ensures e.transform == CopyTerraform ==> a == CopyTerraformTree(e.source, e.dest)
    ensures !e.transform.CopyDirectory? && !e.transform.CopyTerraform? ==>
              (a.ReadFailed? <==> content.None?)
    ensures !e.transform.CopyDirectory? && !e.transform.CopyTerraform? && content.Some? ==>
              a == WriteText(e.dest, AddAttribution(ApplyTransform(e.transform, content.value, rx),
                                                    PathSuffix(e.source), e.attribution))
  {
    if e.transform == CopyDirectory then CopyTree(e.source, e.dest, e.attribution)
    else if e.transform == CopyTerraform then CopyTerraformTree(e.source, e.dest)
    else match content
      case None => ReadFailed
      case Some(text) =>
        var fileExt := PathSuffix(e.source);
        WriteText(e.dest, AddAttribution(ApplyTransform(e.transform, text, rx), fileExt, e.attribution))
  }

  /** A single file is written to its destination as the banner chosen by
      its source suffix followed by the transformed text: the transform runs
      first, and the banner is keyed on the source, not the destination. */
  lemma TransformThenAttribute(e: Extraction, content: string, rx: Rewrites)
    requires !e.transform.CopyDirectory? && !e.transform.CopyTerraform?
    ensures ProcessExtraction(e, Some(content), rx)
            == WriteText(e.dest, Banner(CommentStyleOf(PathSuffix(e.source)), e.attribution)
                                 + ApplyTransform(e.transform, content, rx))
  {
    var t := ApplyTransform(e.transform, content, rx);
    assert ProcessExtraction(e, Some(content), rx)
           == WriteText(e.dest, AddAttribution(t, PathSuffix(e.source), e.attribution));
  }

  /** A single file whose source suffix takes no comments is written as its
      transform leaves it. */
  lemma SingleFileWithoutBanner(e: Extraction, content: string, rx: Rewrites)
    requires !e.transform.CopyDirectory? && !e.transform.CopyTerraform?
    requires CommentStyleOf(PathSuffix(e.source)) == NoComments
    ensures ProcessExtraction(e, Some(content), rx) == WriteText(e.dest, ApplyTransform(e.transform, content, rx))
  {
    var s := PathSuffix(e.source);
    var t := ApplyTransform(e.transform, content, rx);
    assert ProcessExtraction(e, Some(content), rx) == WriteText(e.dest, AddAttribution(t, s, e.attribution));
    AttributionKeepsContent(t, s, e.attribution);
  }

  /** A transform name the dispatch does not know applies nothing, yet the
      banner is still added. */
  lemma UnknownTransformStillAttributes(e: Extraction, content: string, rx: Rewrites)
    requires e.transform.OtherTransform?
    ensures e.transform.name !in KnownNames
    ensures ProcessExtraction(e, Some(content), rx)
            == WriteText(e.dest, AddAttribution(content, PathSuffix(e.source), e.attribution))
  {
  }
}
