/**
 * The YAML configuration provider (`YamlConfigurationProvider`).
 *
 * A parsed YAML document is a tree: mappings from keys to values, scalars
 * (kept as the text their `toString` gives) and explicit nulls. Reading a file
 * from the class path is abstracted as a map from the resource names that exist
 * to the document each one holds (`None` for a file whose document is empty).
 */
module YamlProvider {
  import opened Wrappers
  import opened Text
  import opened Configuration

  datatype Yaml = Null | Scalar(text: string) | Mapping(entries: map<string, Yaml>)

  type Document = map<string, Yaml>

  /** The class-path resources that exist, with what the YAML parser returns for each. */
  type Resources = map<string, Option<Document>>

  const EnabledKey := "reporting.enabled"
  const ProjectKeyKey := "reporting.project-key"
  const HostnameKey := "reporting.server.hostname"
  const AccessTokenKey := "reporting.server.access-token"
  const RunIdKey := "reporting.rerun.run-id"

  /** The file names tried, in order. */
  const DefaultFileNames := ["agent.yaml", "agent.yml"]

  const MalformedMessage := "YAML configuration is malformed, skipping"

  // ---------------------------------------------------------------------------
  // Dotted-key lookup
  // ---------------------------------------------------------------------------

  /** Reference navigation: the node reached by following `path` from `y`
      through mappings only. */
  function At(y: Yaml, path: seq<string>): Option<Yaml>
    decreases |path|
  {
    if |path| == 0 then Some(y)
    else match y
      case Mapping(m) => if path[0] in m then At(m[path[0]], path[1..]) else None
      case _ => None
  }

  /** The loop of `getProperty` over the key's segments: a mapping reached
      before the last segment is entered, a scalar reached at the last segment
      is the result, and anything else (a missing key, a null, a scalar too
      early, a mapping at the end) ends the walk without a result. */
  function Walk(doc: Document, path: seq<string>): (r: Option<string>)
    ensures r.Some? ==> |path| > 0 && path[0] in doc
    decreases |path|
  {
    if |path| == 0 || path[0] !in doc then None
    else match doc[path[0]]
      case Null => None
      case Scalar(t) => if |path| == 1 then Some(t) else None
      case Mapping(m) => if |path| == 1 then None else Walk(m, path[1..])
  }

  /** `getProperty`: split the key on dots and walk the document. A value comes
      back exactly when the key's segments lead, through mappings, to a scalar,
      and it is that scalar's text; a key that splits into nothing yields none. */
  function GetProperty(doc: Document, key: string): (r: Option<string>)
    ensures var path := JavaSplit(key, '.');
      r.Some? <==> |path| > 0 && At(Mapping(doc), path).Some? && At(Mapping(doc), path).value.Scalar?
    ensures r.Some? ==> At(Mapping(doc), JavaSplit(key, '.')) == Some(Scalar(r.value))
  {
    WalkFindsScalarAt(doc, JavaSplit(key, '.'));
    Walk(doc, JavaSplit(key, '.'))
  }

  /** A dotted key yields a value exactly when its path leads, through mappings,
      to a scalar; that scalar's text is the value. */
  lemma {:induction false} WalkFindsScalarAt(doc: Document, path: seq<string>)
    ensures Walk(doc, path).Some? <==> |path| > 0 && At(Mapping(doc), path).Some? && At(Mapping(doc), path).value.Scalar?
    ensures Walk(doc, path).Some? ==> At(Mapping(doc), path) == Some(Scalar(Walk(doc, path).value))
    decreases |path|
  {
    if |path| > 0 && path[0] in doc {
      match doc[path[0]]
      case Null =>
        if |path| > 1 {
          assert At(Null, path[1..]) == None;
        }
      case Scalar(t) =>
        if |path| > 1 {
          assert At(Scalar(t), path[1..]) == None;
        }
      case Mapping(m) =>
        if |path| > 1 {
          WalkFindsScalarAt(m, path[1..]);
        }
    }
  }

  /** Following a prefix and then the rest is following the whole path. */
  lemma {:induction false} AtPrefix(y: Yaml, path: seq<string>, i: nat)
    requires i <= |path| && At(y, path[..i]).Some?
    ensures At(y, path) == At(At(y, path[..i]).value, path[i..])
    decreases i
  {
    if i > 0 {
      assert path[..i][0] == path[0];
      assert path[..i][1..] == path[1..][..i - 1];
      assert path[1..][i - 1..] == path[i..];
      AtPrefix(y.entries[path[0]], path[1..], i - 1);
    }
  }

  /** A segment missing from the mapping reached so far yields no value. */
  lemma MissingSegmentYieldsNothing(doc: Document, path: seq<string>, i: nat, m: map<string, Yaml>)
    requires i < |path| && At(Mapping(doc), path[..i]) == Some(Mapping(m)) && path[i] !in m
    ensures Walk(doc, path) == None
  {
    AtPrefix(Mapping(doc), path, i);
    WalkFindsScalarAt(doc, path);
  }

  /** A scalar or null reached before the last segment yields no value. */
  lemma LeafBeforeLastYieldsNothing(doc: Document, path: seq<string>, i: nat)
    requires i + 1 < |path| && At(Mapping(doc), path[..i + 1]).Some?
    requires !At(Mapping(doc), path[..i + 1]).value.Mapping?
    ensures Walk(doc, path) == None
  {
    AtPrefix(Mapping(doc), path, i + 1);
    WalkFindsScalarAt(doc, path);
  }

  /** A path that ends on a mapping yields no value. */
  lemma MappingAtLastYieldsNothing(doc: Document, path: seq<string>)
    requires At(Mapping(doc), path).Some? && At(Mapping(doc), path).value.Mapping?
    ensures Walk(doc, path) == None
  {
    WalkFindsScalarAt(doc, path);
  }

  /** A key of two non-empty, dot-free segments splits back into them. */
  lemma TwoSegmentKey(x: string, y: string)
    requires x != "" && y != "" && '.' !in x && '.' !in y
    ensures JavaSplit(x + "." + y, '.') == [x, y]
  {
    var segs := [x, y];
    assert segs[1..] == [y];
    assert Join(segs, '.') == x + "." + y;
    JavaSplitJoin(segs, '.');
  }

  /** A key of three non-empty, dot-free segments splits back into them. */
  lemma ThreeSegmentKey(x: string, y: string, z: string)
    requires x != "" && y != "" && z != "" && '.' !in x && '.' !in y && '.' !in z
    ensures JavaSplit(x + "." + y + "." + z, '.') == [x, y, z]
  {
    var segs := [x, y, z];
    assert segs[1..] == [y, z];
    assert segs[1..][1..] == [z];
    assert Join(segs[1..], '.') == y + "." + z;
    assert Join(segs, '.') == x + "." + y + "." + z;
    JavaSplitJoin(segs, '.');
  }

  // Each key the provider reads splits into its dotted segments.
  lemma EnabledKeySegments()
    ensures JavaSplit(EnabledKey, '.') == ["reporting", "enabled"]
  {
    assert EnabledKey == "reporting" + "." + "enabled";
    TwoSegmentKey("reporting", "enabled");
  }

  lemma ProjectKeySegments()
    ensures JavaSplit(ProjectKeyKey, '.') == ["reporting", "project-key"]
  {
    assert ProjectKeyKey == "reporting" + "." + "project-key";
    TwoSegmentKey("reporting", "project-key");
  }

  lemma HostnameKeySegments()
    ensures JavaSplit(HostnameKey, '.') == ["reporting", "server", "hostname"]
  {
    assert HostnameKey == "reporting" + "." + "server" + "." + "hostname";
    ThreeSegmentKey("reporting", "server", "hostname");
  }

  lemma AccessTokenKeySegments()
    ensures JavaSplit(AccessTokenKey, '.') == ["reporting", "server", "access-token"]
  {
    assert AccessTokenKey == "reporting" + "." + "server" + "." + "access-token";
    ThreeSegmentKey("reporting", "server", "access-token");
  }

  lemma RunIdKeySegments()
    ensures JavaSplit(RunIdKey, '.') == ["reporting", "rerun", "run-id"]
  {
    assert RunIdKey == "reporting" + "." + "rerun" + "." + "run-id";
    ThreeSegmentKey("reporting", "rerun", "run-id");
  }

  // ---------------------------------------------------------------------------
  // The `enabled` property
  // ---------------------------------------------------------------------------

  /** `String.valueOf(boolean)`. */
  function ShowBool(b: bool): string {
    if b then "true" else "false"
  }

  /** Validation and `Boolean.parseBoolean` of the `enabled` text: absent stays
      unset, `true`/`false` in any letter case become the matching boolean, and
      anything else is rejected as malformed. */
  function ParseEnabled(v: Option<string>): (r: Result<Option<bool>>)
    ensures r.Err? <==> v.Some? && !EqualsIgnoreCase(v.value, ShowBool(true)) && !EqualsIgnoreCase(v.value, ShowBool(false))
    ensures r.Err? ==> r.message == MalformedMessage
    ensures r == Ok(None) <==> v.None?
    ensures forall b: bool :: r == Ok(Some(b)) ==> v.Some? && EqualsIgnoreCase(v.value, ShowBool(b))
  {
    var enabledIsBoolean := v.None? || EqualsIgnoreCase(v.value, "true") || EqualsIgnoreCase(v.value, "false");
    if !enabledIsBoolean then Err(MalformedMessage)
    else if v.Some? then Ok(Some(EqualsIgnoreCase(v.value, "true")))
    else Ok(None)
  }

  /** Any upper/lower-case spelling of `true` or `false` parses to that boolean. */
  lemma ParseEnabledAnyCase(b: bool, s: string)
    requires |s| == |ShowBool(b)|
    requires forall i | 0 <= i < |s| :: s[i] == ShowBool(b)[i] || s[i] == ToUpperAscii(ShowBool(b)[i])
    ensures ParseEnabled(Some(s)) == Ok(Some(b))
  {
    assert EqualsIgnoreCase(s, ShowBool(b));
    if !b {
      assert !EqualsIgnoreCase(s, "true");
    }
  }

  // ---------------------------------------------------------------------------
  // Loading and the provider's result
  // ---------------------------------------------------------------------------

  /** Index of the first name that exists, or `|names|` when none does. */
  function FirstExisting(names: seq<string>, res: Resources): (i: nat)
    ensures i <= |names|
    ensures forall j | 0 <= j < i :: names[j] !in res
    ensures i < |names| ==> names[i] in res
    decreases |names|
  {
    if |names| == 0 then 0
    else if names[0] in res then 0
    else 1 + FirstExisting(names[1..], res)
  }

  /** `loadYaml`: the document of the first default file name that exists; no
      document when none exists or the one found is empty. */
  function LoadYaml(res: Resources): (r: Option<Document>)
    ensures "agent.yaml" in res ==> r == res["agent.yaml"]
    ensures "agent.yaml" !in res && "agent.yml" in res ==> r == res["agent.yml"]
    ensures "agent.yaml" !in res && "agent.yml" !in res ==> r == None
  {
    var i := FirstExisting(DefaultFileNames, res);
    if i == |DefaultFileNames| then None else res[DefaultFileNames[i]]
  }

  /** `getConfiguration`: without a document every field is unset and both
      sections are present; with one, the five keys are read, `enabled` is
      validated and parsed, and the sections are filled in. */
  function GetConfiguration(res: Resources): (r: Result<Config>)
    ensures r.Ok? ==> HasSections(r.value)
    ensures LoadYaml(res).None? ==> r == Ok(Empty)
    ensures r.Err? <==> LoadYaml(res).Some? && ParseEnabled(GetProperty(LoadYaml(res).value, EnabledKey)).Err?
    ensures r.Ok? && LoadYaml(res).Some? ==>
      var doc := LoadYaml(res).value;
      && Ok(r.value.enabled) == ParseEnabled(GetProperty(doc, EnabledKey))
      && r.value.projectKey == GetProperty(doc, ProjectKeyKey)
      && HostnameOf(r.value) == GetProperty(doc, HostnameKey)
      && TokenOf(r.value) == GetProperty(doc, AccessTokenKey)
      && RunIdOf(r.value) == GetProperty(doc, RunIdKey)
  {
    match LoadYaml(res)
    case None => Ok(Config(None, None, Some(Server(None, None)), Some(Rerun(None))))
    case Some(doc) =>
      var enabled := GetProperty(doc, EnabledKey);
      var projectKey := GetProperty(doc, ProjectKeyKey);
      var hostname := GetProperty(doc, HostnameKey);
      var accessToken := GetProperty(doc, AccessTokenKey);
      var runId := GetProperty(doc, RunIdKey);
      match ParseEnabled(enabled)
      case Err(message) => Err(message)
      case Ok(reportingEnabled) =>
        Ok(Config(reportingEnabled, projectKey, Some(Server(hostname, accessToken)), Some(Rerun(runId))))
  }

  /** The provider as one link of the chain: a thrown exception is a failed outcome. */
  function AsChainOutcome(res: Resources): (o: Outcome)
    ensures o.Failed? <==> GetConfiguration(res).Err?
    ensures o.Provided? ==> Ok(o.config) == GetConfiguration(res)
  {
    match GetConfiguration(res)
    case Ok(c) => Provided(c)
    case Err(_) => Failed
  }

  // ---------------------------------------------------------------------------
  // Round trip: a configuration written as `agent.yaml` reads back unchanged
  // ---------------------------------------------------------------------------

  function Put(m: map<string, Yaml>, key: string, v: Option<string>): map<string, Yaml> {
    if v.Some? then m[key := Scalar(v.value)] else m
  }

  function ShowEnabled(e: Option<bool>): Option<string> {
    if e.Some? then Some(ShowBool(e.value)) else None
  }

  function ServerEntries(c: Config): map<string, Yaml> {
    Put(Put(map[], "hostname", HostnameOf(c)), "access-token", TokenOf(c))
  }

  function RerunEntries(c: Config): map<string, Yaml> {
    Put(map[], "run-id", RunIdOf(c))
  }

  function SectionEntries(c: Config): map<string, Yaml> {
    map["server" := Mapping(ServerEntries(c)), "rerun" := Mapping(RerunEntries(c))]
  }

  function ReportingEntries(c: Config): map<string, Yaml> {
    Put(Put(SectionEntries(c), "enabled", ShowEnabled(c.enabled)), "project-key", c.projectKey)
  }

  /** The YAML document a user would write to hold configuration `c`. */
  function Render(c: Config): Document {
    map["reporting" := Mapping(ReportingEntries(c))]
  }

  lemma PutThenWalk(m: map<string, Yaml>, key: string, v: Option<string>)
    requires key !in m
    ensures Walk(Put(m, key, v), [key]) == v
  {
  }

  lemma WalkInto(doc: Document, key: string, m: map<string, Yaml>, rest: seq<string>)
    requires key in doc && doc[key] == Mapping(m) && |rest| > 0
    ensures Walk(doc, [key] + rest) == Walk(m, rest)
  {
    assert ([key] + rest)[0] == key;
    assert ([key] + rest)[1..] == rest;
  }

  lemma ReportingHoldsSections(c: Config)
    ensures "server" in ReportingEntries(c) && ReportingEntries(c)["server"] == Mapping(ServerEntries(c))
    ensures "rerun" in ReportingEntries(c) && ReportingEntries(c)["rerun"] == Mapping(RerunEntries(c))
  {
  }

  lemma RenderedEnabledReadsBack(c: Config)
    ensures GetProperty(Render(c), EnabledKey) == ShowEnabled(c.enabled)
  {
    var withEnabled := Put(SectionEntries(c), "enabled", ShowEnabled(c.enabled));
    assert Walk(withEnabled, ["enabled"]) == ShowEnabled(c.enabled) by {
      assert "enabled" !in SectionEntries(c);
      PutThenWalk(SectionEntries(c), "enabled", ShowEnabled(c.enabled));
    }
    assert Walk(ReportingEntries(c), ["enabled"]) == Walk(withEnabled, ["enabled"]) by {
      assert "project-key" != "enabled";
    }
    EnabledKeySegments();
    WalkInto(Render(c), "reporting", ReportingEntries(c), ["enabled"]);
  }

  lemma RenderedProjectKeyReadsBack(c: Config)
    ensures GetProperty(Render(c), ProjectKeyKey) == c.projectKey
  {
    var withEnabled := Put(SectionEntries(c), "enabled", ShowEnabled(c.enabled));
    assert Walk(ReportingEntries(c), ["project-key"]) == c.projectKey by {
      assert "project-key" !in withEnabled by {
        assert withEnabled.Keys <= {"server", "rerun", "enabled"};
      }
      PutThenWalk(withEnabled, "project-key", c.projectKey);
    }
    assert GetProperty(Render(c), ProjectKeyKey) == Walk(Render(c), ["reporting"] + ["project-key"]) by {
      ProjectKeySegments();
      assert ["reporting"] + ["project-key"] == ["reporting", "project-key"];
    }
    WalkInto(Render(c), "reporting", ReportingEntries(c), ["project-key"]);
  }

  lemma RenderedServerReadsBack(c: Config)
    ensures GetProperty(Render(c), HostnameKey) == HostnameOf(c)
    ensures GetProperty(Render(c), AccessTokenKey) == TokenOf(c)
  {
    HostnameKeySegments();
    AccessTokenKeySegments();
    ReportingHoldsSections(c);
    WalkInto(Render(c), "reporting", ReportingEntries(c), ["server", "hostname"]);
    WalkInto(Render(c), "reporting", ReportingEntries(c), ["server", "access-token"]);
    WalkInto(ReportingEntries(c), "server", ServerEntries(c), ["hostname"]);
    WalkInto(ReportingEntries(c), "server", ServerEntries(c), ["access-token"]);
    PutThenWalk(Put(map[], "hostname", HostnameOf(c)), "access-token", TokenOf(c));
    assert Walk(ServerEntries(c), ["hostname"]) == HostnameOf(c);
  }

  lemma RenderedRerunReadsBack(c: Config)
    ensures GetProperty(Render(c), RunIdKey) == RunIdOf(c)
  {
    RunIdKeySegments();
    ReportingHoldsSections(c);
    WalkInto(Render(c), "reporting", ReportingEntries(c), ["rerun", "run-id"]);
    WalkInto(ReportingEntries(c), "rerun", RerunEntries(c), ["run-id"]);
    PutThenWalk(map[], "run-id", RunIdOf(c));
  }

  /** Writing any configuration with both sections to `agent.yaml` and letting
      the provider read it yields that configuration back, whatever `agent.yml` holds. */
  lemma RenderRoundTrip(c: Config, other: Option<Document>)
    requires HasSections(c)
    ensures GetConfiguration(map["agent.yaml" := Some(Render(c)), "agent.yml" := other]) == Ok(c)
  {
    var res := map["agent.yaml" := Some(Render(c)), "agent.yml" := other];
    assert LoadYaml(res) == Some(Render(c));
    RenderedEnabledReadsBack(c);
    RenderedProjectKeyReadsBack(c);
    RenderedServerReadsBack(c);
    RenderedRerunReadsBack(c);
    if c.enabled.Some? {
      ParseEnabledAnyCase(c.enabled.value, ShowBool(c.enabled.value));
    }
  }
}
