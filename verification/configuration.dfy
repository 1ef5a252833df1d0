/**
 * The agent's configuration and the provider chain that assembles it
 * (`ReportingConfiguration` and `ConfigurationProviderChain`).
 *
 * A configuration is a record of optional fields; its `server` and `rerun`
 * sections may themselves be missing in what a provider returns. The chain
 * consults providers in priority order, normalises each provider's result,
 * merges it first-wins into an accumulator, stops early once a provider has
 * supplied everything, and finally checks the mandatory fields.
 */
module Configuration {
  import opened Wrappers
  import opened Text

  datatype Server = Server(hostname: Option<string>, accessToken: Option<string>)
  datatype Rerun = Rerun(runId: Option<string>)
  datatype Config = Config(enabled: Option<bool>, projectKey: Option<string>,
                           server: Option<Server>, rerun: Option<Rerun>)

  /** What one provider's `getConfiguration` call yields: a configuration, or a
      `TestAgentException`, which the chain logs and skips. */
  datatype Outcome = Provided(config: Config) | Failed

  /** `ReportingConfiguration.isEnabled()` is defined outside this model; every
      operation that consults it takes it as a parameter of this type. */
  type EnabledRule = Option<bool> -> bool

  const EmptyServer := Server(None, None)
  const EmptyRerun := Rerun(None)

  /** A configuration with no field set and both sections present. */
  const Empty := Config(None, None, Some(EmptyServer), Some(EmptyRerun))

  predicate HasSections(c: Config) {
    c.server.Some? && c.rerun.Some?
  }

  // Field readers that see a missing section as an unset field.
  function EnabledOf(c: Config): Option<bool> { c.enabled }
  function HostnameOf(c: Config): Option<string> { if c.server.Some? then c.server.value.hostname else None }
  function TokenOf(c: Config): Option<string> { if c.server.Some? then c.server.value.accessToken else None }
  function RunIdOf(c: Config): Option<string> { if c.rerun.Some? then c.rerun.value.runId else None }

  /** Set to a blank string: the values normalisation is meant to discard. */
  predicate SetBlank(s: Option<string>) {
    s.Some? && IsBlank(s.value)
  }

  // ---------------------------------------------------------------------------
  // Chain construction
  // ---------------------------------------------------------------------------

  datatype Chain = Chain(providers: seq<Outcome>)

  /** The chain constructor: a null (`None`) or empty provider list is an
      `IllegalArgumentException`; otherwise the providers are kept in order. */
  function NewChain(providers: Option<seq<Outcome>>): (r: Result<Chain>)
    ensures r.Ok? <==> providers.Some? && |providers.value| > 0
    ensures r.Ok? ==> r.value.providers == providers.value
  {
    if providers.None? || |providers.value| == 0 then Err("No credential providers specified")
    else Ok(Chain(providers.value))
  }

  // ---------------------------------------------------------------------------
  // Normalisation
  // ---------------------------------------------------------------------------

  /** Which server-section normaliser the chain runs: the one the source has,
      which reads the access token from the hostname field, or one that
      normalises each field on its own. */
  datatype ServerNormalization = AsWritten | PerField

  /** The server normaliser as the source has it: the value it calls the access
      token is the hostname, so a blank hostname clears both fields and the
      access token itself is never inspected. */
  function NormalizeServerAsWritten(s: Server): (r: Server)
    ensures SetBlank(s.hostname) ==> r == EmptyServer
    ensures !SetBlank(s.hostname) ==> r == s
  {
    var hostname := s.hostname;
    var accessToken := s.hostname;
    var s1 := if hostname.Some? && IsBlank(accessToken.value) then s.(hostname := None) else s;
    if accessToken.Some? && IsBlank(accessToken.value) then s1.(accessToken := None) else s1
  }

  /** The per-field server normaliser: each field is cleared when, and only
      when, it is itself blank. */
  function NormalizeServerPerField(s: Server): (r: Server)
    ensures !SetBlank(r.hostname) && !SetBlank(r.accessToken)
    ensures r.hostname.None? <==> s.hostname.None? || SetBlank(s.hostname)
    ensures r.accessToken.None? <==> s.accessToken.None? || SetBlank(s.accessToken)
    ensures r.hostname.Some? ==> r.hostname == s.hostname
    ensures r.accessToken.Some? ==> r.accessToken == s.accessToken
  {
    var s1 := if SetBlank(s.hostname) then s.(hostname := None) else s;
    if SetBlank(s.accessToken) then s1.(accessToken := None) else s1
  }

  function NormalizeServer(mode: ServerNormalization, s: Server): Server {
    match mode
    case AsWritten => NormalizeServerAsWritten(s)
    case PerField => NormalizeServerPerField(s)
  }

  /** A missing rerun section becomes an empty one; a blank run id becomes unset. */
  function NormalizeRerun(r: Option<Rerun>): (n: Rerun)
    ensures !SetBlank(n.runId)
    ensures n.runId.None? <==> r.None? || r.value.runId.None? || SetBlank(r.value.runId)
    ensures n.runId.Some? ==> n.runId == r.value.runId
  {
    if r.None? then EmptyRerun
    else if SetBlank(r.value.runId) then r.value.(runId := None)
    else r.value
  }

  /** `normalize`: both sections present afterwards, a missing server section
      replaced by an empty one, blank values handled as described above;
      `enabled` and `projectKey` are not touched. */
  function Normalize(mode: ServerNormalization, c: Config): (r: Config)
    ensures HasSections(r)
    ensures r.enabled == c.enabled && r.projectKey == c.projectKey
    ensures c.server.None? ==> r.server == Some(EmptyServer)
    ensures c.server.Some? ==> r.server == Some(NormalizeServer(mode, c.server.value))
    ensures !SetBlank(RunIdOf(r))
    ensures RunIdOf(r).Some? ==> RunIdOf(r) == RunIdOf(c)
    ensures RunIdOf(c).Some? && !SetBlank(RunIdOf(c)) ==> RunIdOf(r) == RunIdOf(c)
  {
    var server := if c.server.None? then EmptyServer else NormalizeServer(mode, c.server.value);
    c.(server := Some(server), rerun := Some(NormalizeRerun(c.rerun)))
  }

  /** With the per-field normaliser nothing blank survives normalisation. */
  lemma PerFieldLeavesNoBlank(c: Config)
    ensures var n := Normalize(PerField, c);
      !SetBlank(HostnameOf(n)) && !SetBlank(TokenOf(n)) && !SetBlank(RunIdOf(n))
    ensures var n := Normalize(PerField, c);
      && (!SetBlank(HostnameOf(c)) ==> HostnameOf(n) == HostnameOf(c))
      && (!SetBlank(TokenOf(c)) ==> TokenOf(n) == TokenOf(c))
  {
  }

  /** Normalising twice changes nothing more than normalising once, in either mode. */
  lemma NormalizeIdempotent(mode: ServerNormalization, c: Config)
    ensures Normalize(mode, Normalize(mode, c)) == Normalize(mode, c)
  {
    var n := Normalize(mode, c);
    assert n.server.Some?;
    if mode == AsWritten {
      assert !SetBlank(n.server.value.hostname);
    }
  }

  // ---------------------------------------------------------------------------
  // Merge and the two checks
  // ---------------------------------------------------------------------------

  /** `merge`: each of `enabled`, hostname, access token and run id that the
      accumulator has not set yet is taken from the provider's configuration;
      a field already set is never overwritten; `projectKey` is not merged. */
  function Merge(acc: Config, p: Config): (r: Config)
    requires HasSections(acc) && HasSections(p)
    ensures HasSections(r)
    ensures r.projectKey == acc.projectKey
    ensures EnabledOf(acc).Some? ==> EnabledOf(r) == EnabledOf(acc)
    ensures EnabledOf(acc).None? ==> EnabledOf(r) == EnabledOf(p)
    ensures HostnameOf(acc).Some? ==> HostnameOf(r) == HostnameOf(acc)
    ensures HostnameOf(acc).None? ==> HostnameOf(r) == HostnameOf(p)
    ensures TokenOf(acc).Some? ==> TokenOf(r) == TokenOf(acc)
    ensures TokenOf(acc).None? ==> TokenOf(r) == TokenOf(p)
    ensures RunIdOf(acc).Some? ==> RunIdOf(r) == RunIdOf(acc)
    ensures RunIdOf(acc).None? ==> RunIdOf(r) == RunIdOf(p)
  {
    var server := acc.server.value;
    var rerun := acc.rerun.value;
    Config(
      if acc.enabled == None then p.enabled else acc.enabled,
      acc.projectKey,
      Some(Server(
        if server.hostname == None then p.server.value.hostname else server.hostname,
        if server.accessToken == None then p.server.value.accessToken else server.accessToken)),
      Some(Rerun(if rerun.runId == None then p.rerun.value.runId else rerun.runId)))
  }

  /** First-wins merging is associative: merging providers one at a time equals
      merging the accumulator with their own first-wins merge. */
  lemma MergeAssociative(a: Config, b: Config, c: Config)
    requires HasSections(a) && HasSections(b) && HasSections(c)
    ensures Merge(Merge(a, b), c) == Merge(a, Merge(b, c))
  {
  }

  /** Every field that `merge` considers is set. */
  predicate AllSet(c: Config) {
    EnabledOf(c).Some? && HostnameOf(c).Some? && TokenOf(c).Some? && RunIdOf(c).Some?
  }

  /** Once every merged field is set, further merges change nothing. */
  lemma MergeIntoCompleteIsIdentity(acc: Config, p: Config)
    requires HasSections(acc) && HasSections(p) && AllSet(acc)
    ensures Merge(acc, p) == acc
  {
  }

  /** `areMandatoryArgsSet`: reporting is disabled, or hostname and access
      token are set. The run id and the `enabled` flag itself are optional. */
  function AreMandatoryArgsSet(isEnabled: EnabledRule, c: Config): (ok: bool)
    ensures ok <==> !isEnabled(c.enabled) || (HostnameOf(c).Some? && TokenOf(c).Some?)
    ensures AllSet(c) ==> ok
  {
    !isEnabled(c.enabled) || (HostnameOf(c).Some? && TokenOf(c).Some?)
  }

  /** `areAllArgsSet`, the early-stop test: reporting is disabled, or every
      merged field, `enabled` included, is set. It is stricter than the final
      check, and a configuration that leaves `enabled` unset while unset reads
      as enabled never passes it. */
  function AreAllArgsSet(isEnabled: EnabledRule, c: Config): (all: bool)
    ensures all <==> !isEnabled(c.enabled) || AllSet(c)
    ensures all ==> AreMandatoryArgsSet(isEnabled, c)
    ensures c.enabled.None? && isEnabled(None) ==> !all
  {
    !isEnabled(c.enabled) || AllSet(c)
  }

  // ---------------------------------------------------------------------------
  // Assembly
  // ---------------------------------------------------------------------------

  /** `assembleConfiguration`: providers in order; a failed provider is skipped;
      the loop stops after the first provider whose OWN normalised configuration
      passes `AreAllArgsSet`. */
  function Assemble(mode: ServerNormalization, isEnabled: EnabledRule, acc: Config, ps: seq<Outcome>): (r: Config)
    requires HasSections(acc)
    ensures HasSections(r)
    ensures r.projectKey == acc.projectKey
    ensures EnabledOf(acc).Some? ==> EnabledOf(r) == EnabledOf(acc)
    ensures HostnameOf(acc).Some? ==> HostnameOf(r) == HostnameOf(acc)
    ensures TokenOf(acc).Some? ==> TokenOf(r) == TokenOf(acc)
    ensures RunIdOf(acc).Some? ==> RunIdOf(r) == RunIdOf(acc)
    decreases |ps|
  {
    if |ps| == 0 then acc
    else match ps[0]
      case Failed => Assemble(mode, isEnabled, acc, ps[1..])
      case Provided(c) =>
        var n := Normalize(mode, c);
        var merged := Merge(acc, n);
        if AreAllArgsSet(isEnabled, n) then merged
        else Assemble(mode, isEnabled, merged, ps[1..])
  }

  /** The normalised configurations the loop actually merges, in order: failed
      providers are absent and the list ends at the early stop. */
  function Consulted(mode: ServerNormalization, isEnabled: EnabledRule, ps: seq<Outcome>): seq<Config>
    decreases |ps|
  {
    if |ps| == 0 then []
    else match ps[0]
      case Failed => Consulted(mode, isEnabled, ps[1..])
      case Provided(c) =>
        var n := Normalize(mode, c);
        if AreAllArgsSet(isEnabled, n) then [n]
        else [n] + Consulted(mode, isEnabled, ps[1..])
  }

  /** The value of a field in the first configuration of `cs` that sets it. */
  function FirstSet<T>(cs: seq<Config>, field: Config -> Option<T>): Option<T>
  {
    if |cs| == 0 then None
    else if field(cs[0]).Some? then field(cs[0])
    else FirstSet(cs[1..], field)
  }

  lemma FirstSetSkipsMerged<T>(a: Config, b: Config, rest: seq<Config>, field: Config -> Option<T>)
    requires HasSections(a) && HasSections(b)
    requires field(Merge(a, b)) == OrElse(field(a), field(b))
    ensures FirstSet([a, b] + rest, field) == FirstSet([Merge(a, b)] + rest, field)
  {
    assert ([a, b] + rest)[1..] == [b] + rest;
    assert ([b] + rest)[1..] == rest;
    assert ([Merge(a, b)] + rest)[1..] == rest;
  }

  lemma FirstSetSingle<T>(a: Config, b: Config, field: Config -> Option<T>)
    requires HasSections(a) && HasSections(b)
    requires field(Merge(a, b)) == OrElse(field(a), field(b))
    ensures FirstSet([a, b], field) == field(Merge(a, b))
  {
    assert [a, b][1..] == [b];
    assert [b][1..] == [];
    if field(a).None? {
      assert FirstSet([a, b], field) == FirstSet([b], field);
      if field(b).None? {
        assert FirstSet([b], field) == FirstSet([], field);
      }
    }
  }

  /** Each merged field of `r` is the first value `cs` sets for it. */
  predicate TakesFirstSet(r: Config, cs: seq<Config>) {
    && EnabledOf(r) == FirstSet(cs, EnabledOf)
    && HostnameOf(r) == FirstSet(cs, HostnameOf)
    && TokenOf(r) == FirstSet(cs, TokenOf)
    && RunIdOf(r) == FirstSet(cs, RunIdOf)
  }

  /** The early-stop step: the merge of the accumulator with the last consulted
      configuration takes, field by field, the first of the two that sets it. */
  lemma StopTakesFirstSet(acc: Config, n: Config)
    requires HasSections(acc) && HasSections(n)
    ensures TakesFirstSet(Merge(acc, n), [acc, n])
  {
    FirstSetSingle(acc, n, EnabledOf);
    FirstSetSingle(acc, n, HostnameOf);
    FirstSetSingle(acc, n, TokenOf);
    FirstSetSingle(acc, n, RunIdOf);
  }

  /** The continuing step: folding the next configuration into the accumulator
      does not change which value comes first. */
  lemma ContinueTakesFirstSet(acc: Config, n: Config, rest: seq<Config>, r: Config)
    requires HasSections(acc) && HasSections(n)
    requires TakesFirstSet(r, [Merge(acc, n)] + rest)
    ensures TakesFirstSet(r, [acc, n] + rest)
  {
    FirstSetSkipsMerged(acc, n, rest, EnabledOf);
    FirstSetSkipsMerged(acc, n, rest, HostnameOf);
    FirstSetSkipsMerged(acc, n, rest, TokenOf);
    FirstSetSkipsMerged(acc, n, rest, RunIdOf);
  }

  /** Reference reading of the chain: each merged field of the assembled
      configuration is the value of the FIRST consulted provider (after the
      accumulator) that sets it, so a higher-priority value is never replaced. */
  lemma {:induction false} AssembleTakesFirstSet(mode: ServerNormalization, isEnabled: EnabledRule,
                                                 acc: Config, ps: seq<Outcome>)
    requires HasSections(acc)
    ensures var r := Assemble(mode, isEnabled, acc, ps);
            var cs := [acc] + Consulted(mode, isEnabled, ps);
      TakesFirstSet(r, cs)
    decreases |ps|
  {
    var r := Assemble(mode, isEnabled, acc, ps);
    var cs := [acc] + Consulted(mode, isEnabled, ps);
    if |ps| == 0 {
      assert [acc] + [] == [acc];
    } else {
      match ps[0]
      case Failed =>
        AssembleTakesFirstSet(mode, isEnabled, acc, ps[1..]);
      case Provided(c) =>
        var n := Normalize(mode, c);
        var m := Merge(acc, n);
        if AreAllArgsSet(isEnabled, n) {
          assert r == m && cs == [acc, n];
          StopTakesFirstSet(acc, n);
        } else {
          var rest := Consulted(mode, isEnabled, ps[1..]);
          assert r == Assemble(mode, isEnabled, m, ps[1..]) && cs == [acc, n] + rest;
          AssembleTakesFirstSet(mode, isEnabled, m, ps[1..]);
          assert TakesFirstSet(r, [m] + rest);
          ContinueTakesFirstSet(acc, n, rest, r);
        }
    }
  }

  /** A provider that throws contributes nothing, and the providers after it
      are still consulted exactly as if it were not in the chain. */
  lemma {:induction false} FailedProviderIsSkipped(mode: ServerNormalization, isEnabled: EnabledRule,
                                                   acc: Config, pre: seq<Outcome>, post: seq<Outcome>)
    requires HasSections(acc)
    ensures Assemble(mode, isEnabled, acc, pre + [Failed] + post) == Assemble(mode, isEnabled, acc, pre + post)
    ensures Consulted(mode, isEnabled, pre + [Failed] + post) == Consulted(mode, isEnabled, pre + post)
    decreases |pre|
  {
    if |pre| == 0 {
      assert pre + [Failed] + post == [Failed] + post;
      assert ([Failed] + post)[1..] == post;
      assert pre + post == post;
    } else {
      assert (pre + [Failed] + post)[0] == pre[0] == (pre + post)[0];
      assert (pre + [Failed] + post)[1..] == pre[1..] + [Failed] + post;
      assert (pre + post)[1..] == pre[1..] + post;
      match pre[0]
      case Failed =>
        FailedProviderIsSkipped(mode, isEnabled, acc, pre[1..], post);
      case Provided(c) =>
        var n := Normalize(mode, c);
        if !AreAllArgsSet(isEnabled, n) {
          FailedProviderIsSkipped(mode, isEnabled, Merge(acc, n), pre[1..], post);
          FailedProviderIsSkipped(mode, isEnabled, acc, pre[1..], post);
        }
    }
  }

  /** Early stop: once provider `k`'s own normalised configuration passes
      `AreAllArgsSet`, replacing every lower-priority provider by any other
      list leaves the assembled configuration unchanged. */
  lemma {:induction false} EarlyStopIgnoresLowerPriority(mode: ServerNormalization, isEnabled: EnabledRule,
                                                         acc: Config, ps: seq<Outcome>, k: nat, others: seq<Outcome>)
    requires HasSections(acc)
    requires k < |ps| && ps[k].Provided?
    requires AreAllArgsSet(isEnabled, Normalize(mode, ps[k].config))
    ensures Assemble(mode, isEnabled, acc, ps[..k + 1] + others) == Assemble(mode, isEnabled, acc, ps)
    decreases k
  {
    var qs := ps[..k + 1] + others;
    assert qs[0] == ps[0];
    if k > 0 {
      assert qs[1..] == ps[1..][..k] + others;
      match ps[0]
      case Failed =>
        EarlyStopIgnoresLowerPriority(mode, isEnabled, acc, ps[1..], k - 1, others);
      case Provided(c) =>
        var n := Normalize(mode, c);
        if !AreAllArgsSet(isEnabled, n) {
          EarlyStopIgnoresLowerPriority(mode, isEnabled, Merge(acc, n), ps[1..], k - 1, others);
        }
    }
  }

  // ---------------------------------------------------------------------------
  // The chain's result
  // ---------------------------------------------------------------------------

  /** `getConfiguration`: assemble from an empty configuration with both
      sections present, then fail when the mandatory fields are missing. */
  function GetConfiguration(mode: ServerNormalization, isEnabled: EnabledRule, chain: Chain): (r: Result<Config>)
    ensures r.Ok? ==> HasSections(r.value) && r.value.projectKey.None?
    ensures r.Ok? ==> !isEnabled(r.value.enabled) || (HostnameOf(r.value).Some? && TokenOf(r.value).Some?)
  {
    var config := Assemble(mode, isEnabled, Empty, chain.providers);
    if AreMandatoryArgsSet(isEnabled, config) then Ok(config)
    else Err("Mandatory agent properties are missing - double-check agent configuration")
  }

  lemma FirstSetPastEmpty<T>(cs: seq<Config>, field: Config -> Option<T>)
    requires field(Empty).None?
    ensures FirstSet([Empty] + cs, field) == FirstSet(cs, field)
  {
    assert ([Empty] + cs)[1..] == cs;
  }

  /** The chain succeeds exactly when the first-set `enabled` value reads as
      disabled, or some consulted provider sets a hostname and some sets an
      access token; on success each field holds that first-set value. */
  lemma GetConfigurationOutcome(mode: ServerNormalization, isEnabled: EnabledRule, chain: Chain)
    ensures var cs := Consulted(mode, isEnabled, chain.providers);
            var r := GetConfiguration(mode, isEnabled, chain);
      && (r.Ok? <==> !isEnabled(FirstSet(cs, EnabledOf))
                     || (FirstSet(cs, HostnameOf).Some? && FirstSet(cs, TokenOf).Some?))
      && (r.Ok? ==> TakesFirstSet(r.value, cs))
  {
    var cs := Consulted(mode, isEnabled, chain.providers);
    AssembleTakesFirstSet(mode, isEnabled, Empty, chain.providers);
    FirstSetPastEmpty(cs, EnabledOf);
    FirstSetPastEmpty(cs, HostnameOf);
    FirstSetPastEmpty(cs, TokenOf);
    FirstSetPastEmpty(cs, RunIdOf);
  }

  /** A provider that disables reporting makes the chain succeed whatever is
      missing, provided no higher-priority provider set `enabled` first. */
  lemma DisabledNeverFails(mode: ServerNormalization, isEnabled: EnabledRule, chain: Chain)
    requires !isEnabled(FirstSet(Consulted(mode, isEnabled, chain.providers), EnabledOf))
    ensures GetConfiguration(mode, isEnabled, chain).Ok?
  {
    GetConfigurationOutcome(mode, isEnabled, chain);
  }

  /** Two providers, the first with only an access token, the second with a
      hostname, another token and a blank run id: the hostname comes from the
      second, the token from the first, and the blank run id is dropped. */
  lemma TwoProviderScenario(mode: ServerNormalization, isEnabled: EnabledRule)
    requires isEnabled(None)
    ensures var a := Config(None, None, Some(Server(None, Some("abc"))), None);
            var b := Config(None, None, Some(Server(Some("h.test"), Some("xyz"))), Some(Rerun(Some("   "))));
            var r := Assemble(mode, isEnabled, Empty, [Provided(a), Provided(b)]);
      HostnameOf(r) == Some("h.test") && TokenOf(r) == Some("abc") && RunIdOf(r) == None
  {
    var a := Config(None, None, Some(Server(None, Some("abc"))), None);
    var b := Config(None, None, Some(Server(Some("h.test"), Some("xyz"))), Some(Rerun(Some("   "))));
    assert !IsBlank("h.test") by { assert !IsWhitespace("h.test"[0]); }
    assert !IsBlank("xyz") by { assert !IsWhitespace("xyz"[0]); }
    assert IsBlank("   ");
    assert !IsBlank("abc") by { assert !IsWhitespace("abc"[0]); }
    var ps := [Provided(a), Provided(b)];
    assert ps[1..] == [Provided(b)];
    assert ps[1..][1..] == [];
    var na := Normalize(mode, a);
    var nb := Normalize(mode, b);
    assert HostnameOf(na) == None && TokenOf(na) == Some("abc");
    assert HostnameOf(nb) == Some("h.test") && RunIdOf(nb) == None;
    var m := Merge(Empty, na);
    assert !AreAllArgsSet(isEnabled, na) && !AreAllArgsSet(isEnabled, nb);
    assert Assemble(mode, isEnabled, Empty, ps) == Assemble(mode, isEnabled, m, ps[1..]);
    assert Assemble(mode, isEnabled, m, ps[1..]) == Merge(m, nb);
  }

  // ---------------------------------------------------------------------------
  // The line-68 defect
  // ---------------------------------------------------------------------------

  /** As written, a blank access token behind a non-blank hostname survives
      normalisation and is accepted by the chain as a mandatory value. */
  lemma BlankTokenSurvivesAsWritten(isEnabled: EnabledRule)
    requires isEnabled(Some(true))
    ensures var c := Config(Some(true), None, Some(Server(Some("h.test"), Some("  "))), Some(Rerun(Some("7"))));
            var r := GetConfiguration(AsWritten, isEnabled, Chain([Provided(c)]));
      r.Ok? && TokenOf(r.value) == Some("  ") && SetBlank(TokenOf(r.value))
  {
    var c := Config(Some(true), None, Some(Server(Some("h.test"), Some("  "))), Some(Rerun(Some("7"))));
    assert Normalize(AsWritten, c) == c by {
      assert !IsBlank("h.test") by { assert !IsWhitespace("h.test"[0]); }
      assert !IsBlank("7") by { assert !IsWhitespace("7"[0]); }
    }
    assert Assemble(AsWritten, isEnabled, Empty, [Provided(c)]) == c by {
      assert [Provided(c)][1..] == [];
      assert Merge(Empty, c) == c;
    }
    assert GetConfiguration(AsWritten, isEnabled, Chain([Provided(c)])) == Ok(c) by {
      assert AreMandatoryArgsSet(isEnabled, c);
    }
    assert IsBlank("  ");
  }

  /** As written, a blank hostname also discards a perfectly good access token. */
  lemma BlankHostnameDropsTokenAsWritten()
    ensures NormalizeServerAsWritten(Server(Some(" "), Some("abc"))) == EmptyServer
  {
  }

  /** With per-field normalisation the same input is rejected: the blank token
      is unset, so the mandatory check fails while reporting is enabled. */
  lemma BlankTokenRejectedPerField(isEnabled: EnabledRule)
    requires isEnabled(Some(true))
    ensures var c := Config(Some(true), None, Some(Server(Some("h.test"), Some("  "))), Some(Rerun(Some("7"))));
      GetConfiguration(PerField, isEnabled, Chain([Provided(c)])).Err?
  {
    assert !IsBlank("h.test") by { assert !IsWhitespace("h.test"[0]); }
    assert !IsBlank("7") by { assert !IsWhitespace("7"[0]); }
  }

  /** With per-field normalisation a successful, enabled configuration never
      carries a blank hostname, access token or run id. */
  lemma {:induction false} PerFieldResultHasNoBlank(isEnabled: EnabledRule, chain: Chain)
    ensures var r := GetConfiguration(PerField, isEnabled, chain);
      r.Ok? ==> !SetBlank(HostnameOf(r.value)) && !SetBlank(TokenOf(r.value)) && !SetBlank(RunIdOf(r.value))
  {
    var cs := Consulted(PerField, isEnabled, chain.providers);
    GetConfigurationOutcome(PerField, isEnabled, chain);
    ConsultedPerFieldHasNoBlank(isEnabled, chain.providers);
    FirstSetNotBlank(cs, HostnameOf);
    FirstSetNotBlank(cs, TokenOf);
    FirstSetNotBlank(cs, RunIdOf);
  }

  predicate NoBlankField(c: Config) {
    !SetBlank(HostnameOf(c)) && !SetBlank(TokenOf(c)) && !SetBlank(RunIdOf(c))
  }

  lemma {:induction false} ConsultedPerFieldHasNoBlank(isEnabled: EnabledRule, ps: seq<Outcome>)
    ensures forall c | c in Consulted(PerField, isEnabled, ps) :: NoBlankField(c)
    decreases |ps|
  {
    if |ps| > 0 {
      ConsultedPerFieldHasNoBlank(isEnabled, ps[1..]);
      match ps[0]
      case Failed =>
      case Provided(c) =>
        PerFieldLeavesNoBlank(c);
    }
  }

  lemma {:induction false} FirstSetNotBlank(cs: seq<Config>, field: Config -> Option<string>)
    requires forall c | c in cs :: !SetBlank(field(c))
    ensures !SetBlank(FirstSet(cs, field))
    decreases |cs|
  {
    if |cs| > 0 && field(cs[0]).None? {
      assert forall c | c in cs[1..] :: c in cs;
      FirstSetNotBlank(cs[1..], field);
    }
  }
}
