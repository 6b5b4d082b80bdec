/** Gateway model ids (api/gateway_model_ids.py) and their routing (api/model_router.py). */
module ModelIds {
  import opened Base
  import opened Strings

  const GATEWAY_PREFIX := "anthropic"
  const NO_THINKING_PREFIX := "claude-3-freecc-no-thinking"
  const MARKER := "[1m]"

  datatype Decoded = Decoded(provider: string, model: string, forceThinking: Option<bool>)

  /** s.partition("/") without the separator; None when there is none. */
  function Partition(s: string): (r: Option<(string, string)>)
    ensures r.None? <==> '/' !in s
    ensures r.Some? ==> s == r.value.0 + "/" + r.value.1 && '/' !in r.value.0
  {
    var k := IndexOf(s, '/');
    if k == |s| then
      assert '/' !in s;
      None
    else
      assert s == s[..k] + [s[k]] + s[k + 1..];
      Some((s[..k], s[k + 1..]))
  }

  lemma PartitionIs(p: string, m: string)
    requires '/' !in p
    ensures Partition(p + "/" + m) == Some((p, m))
  {
    var s := p + "/" + m;
    assert s[|p|] == '/';
    assert forall i :: 0 <= i < |p| ==> s[i] == p[i];
    IndexOfIs(s, '/', |p|);
    assert s[..|p|] == p && s[|p| + 1..] == m;
  }

  /** lower().endswith("[1m]") */
  predicate HasMarker(s: string) {
    |s| >= 4 && (s[|s| - 4..] == "[1m]" || s[|s| - 4..] == "[1M]")
  }

  lemma HasMarkerIff(s: string)
    ensures HasMarker(s) <==> exists base :: s == base + "[1m]" || s == base + "[1M]"
  {
    if HasMarker(s) {
      assert s == s[..|s| - 4] + s[|s| - 4..];
    }
    forall base | s == base + "[1m]" || s == base + "[1M]" ensures HasMarker(s) {
      assert s[|s| - 4..] == "[1m]" || s[|s| - 4..] == "[1M]";
    }
  }

  function StripMarker(s: string): string {
    if HasMarker(s) then s[..|s| - 4] else s
  }

  lemma StripAdded(s: string)
    ensures StripMarker(s + MARKER) == s
  {
    assert (s + MARKER)[|s|..] == MARKER && (s + MARKER)[..|s|] == s;
  }

  lemma MarkerSitsInModel(p: string, m: string)
    ensures HasMarker(p + "/" + m) <==> HasMarker(m)
  {
    var s := p + "/" + m;
    if |m| >= 4 {
      assert s[|s| - 4..] == m[|m| - 4..];
    } else if |s| >= 4 {
      assert s[|s| - 4..][3 - |m|] == '/';
      assert '/' !in "[1m]" && '/' !in "[1M]";
    }
  }

  function WithContext(id: string, context1m: bool): string {
    if context1m then id + MARKER else id
  }

  function GatewayModelId(ref: string, context1m: bool): string {
    WithContext(GATEWAY_PREFIX + "/" + ref, context1m)
  }

  function NoThinkingGatewayModelId(ref: string, context1m: bool): string {
    WithContext(NO_THINKING_PREFIX + "/" + ref, context1m)
  }

  function DecodeGatewayModelId(name: string): Option<Decoded> {
    var outer := Partition(name);
    if outer.None? || (outer.value.0 != GATEWAY_PREFIX && outer.value.0 != NO_THINKING_PREFIX) then None
    else
      var inner := Partition(outer.value.1);
      if inner.None? || inner.value.1 == "" then None
      else Some(Decoded(inner.value.0, StripMarker(inner.value.1),
                        if outer.value.0 == GATEWAY_PREFIX then None else Some(false)))
  }

  /** A provider/model pair taken from the name itself, or None for the configured mapping. */
  function DirectProviderModel(name: string, supported: set<string>): Option<Decoded> {
    var decoded := DecodeGatewayModelId(name);
    if decoded.Some? then
      if decoded.value.provider in supported then decoded else None
    else
      var parts := Partition(name);
      if parts.None? || parts.value.0 !in supported || parts.value.1 == "" then None
      else Some(Decoded(parts.value.0, StripMarker(parts.value.1), None))
  }

  /** The settings the router consults: thinking by model name, and the configured ref. */
  datatype Settings = Settings(thinking: string -> bool, model: string -> string)

  datatype Resolved = Resolved(provider: string, model: string, ref: string, thinking: bool)

  /** `resolve`; None stands for the error raised when the configured ref has no slash. */
  function Resolve(name: string, supported: set<string>, s: Settings): Option<Resolved> {
    var direct := DirectProviderModel(name, supported);
    if direct.Some? then
      var d := direct.value;
      Some(Resolved(d.provider, d.model, name,
                    if d.forceThinking.Some? then d.forceThinking.value else s.thinking(d.model)))
    else
      var ref := s.model(name);
      var parts := Partition(ref);
      if parts.None? then None else Some(Resolved(parts.value.0, parts.value.1, ref, s.thinking(name)))
  }

  /** A provider reference this gateway can route. */
  predicate IsRef(p: string, m: string, supported: set<string>) {
    p in supported && '/' !in p && m != ""
  }

  lemma GatewayIdDecodes(p: string, m: string, prefix: string, context1m: bool)
    requires '/' !in p && m != "" && (prefix == GATEWAY_PREFIX || prefix == NO_THINKING_PREFIX)
    ensures DecodeGatewayModelId(WithContext(prefix + "/" + (p + "/" + m), context1m))
         == Some(Decoded(p, if context1m then m else StripMarker(m),
                         if prefix == GATEWAY_PREFIX then None else Some(false)))
  {
    var m' := WithContext(m, context1m);
    var id := WithContext(prefix + "/" + (p + "/" + m), context1m);
    assert id == prefix + "/" + (p + "/" + m');
    assert '/' !in prefix;
    PartitionIs(prefix, p + "/" + m');
    PartitionIs(p, m');
    StripAdded(m);
  }

  /** Every advertised id routes back to its provider and model: always with the context marker,
      and without it exactly when the model name does not itself end in the marker. The
      no-thinking form forces thinking off; the normal form leaves it to the settings. */
  lemma AdvertisedIdRoutesBackIff(p: string, m: string, supported: set<string>, s: Settings, context1m: bool)
    requires IsRef(p, m, supported)
    ensures var normal := GatewayModelId(p + "/" + m, context1m);
            Resolve(normal, supported, s) == Some(Resolved(p, m, normal, s.thinking(m))) <==> context1m || !HasMarker(m)
    ensures var quiet := NoThinkingGatewayModelId(p + "/" + m, context1m);
            Resolve(quiet, supported, s) == Some(Resolved(p, m, quiet, false)) <==> context1m || !HasMarker(m)
  {
    GatewayIdDecodes(p, m, GATEWAY_PREFIX, context1m);
    GatewayIdDecodes(p, m, NO_THINKING_PREFIX, context1m);
  }

  /** A bare provider/model name routes to itself unless its provider is called like one of the
      gateway prefixes and its model contains a further path. */
  lemma PlainRefRoutesIff(p: string, m: string, supported: set<string>)
    requires IsRef(p, m, supported)
    ensures DirectProviderModel(p + "/" + m, supported) == Some(Decoded(p, StripMarker(m), None))
       <==> !((p == GATEWAY_PREFIX || p == NO_THINKING_PREFIX)
              && Partition(m).Some? && Partition(m).value.1 != "")
  {
    PartitionIs(p, m);
    if (p == GATEWAY_PREFIX || p == NO_THINKING_PREFIX) && Partition(m).Some? && Partition(m).value.1 != "" {
      var d := DecodeGatewayModelId(p + "/" + m).value;
      var rest := Partition(m).value.1;
      assert d.model == StripMarker(rest);
      MarkerSitsInModel(Partition(m).value.0, rest);
      assert |StripMarker(rest)| < |StripMarker(m)|;
    }
  }

  /** An unmarked id of a model whose own name ends in the marker routes to another model. */
  lemma OwnMarkerIsLost(s: Settings)
    ensures var r := Resolve(GatewayModelId("groq/m[1m]", false), {"groq"}, s);
            r.Some? && r.value.provider == "groq" && r.value.model == "m"
  {
    assert HasMarker("m[1m]") && StripMarker("m[1m]") == "m";
    assert "groq" + "/" + "m[1m]" == "groq/m[1m]" && '/' !in "groq";
    GatewayIdDecodes("groq", "m[1m]", GATEWAY_PREFIX, false);
  }

  /** Any other name goes to the configured ref, split at its first slash; its thinking is looked up
      under the name asked for. Without a slash in that ref the request fails. */
  lemma ConfiguredRoutes(name: string, supported: set<string>, s: Settings, p: string, m: string)
    requires DirectProviderModel(name, supported).None?
    ensures s.model(name) == p + "/" + m && '/' !in p ==>
              Resolve(name, supported, s) == Some(Resolved(p, m, p + "/" + m, s.thinking(name)))
    ensures Resolve(name, supported, s).None? <==> '/' !in s.model(name)
  {
    if s.model(name) == p + "/" + m && '/' !in p {
      PartitionIs(p, m);
    }
  }

  /** That includes every name without a slash, such as the plain Claude names. */
  lemma PlainNamesAreConfigured(name: string, supported: set<string>)
    requires '/' !in name
    ensures DirectProviderModel(name, supported).None?
  {
  }

  /** Only advertised ids decode: prefix, provider, and a model that may carry the marker. */
  lemma DecodedIs(name: string)
    ensures match DecodeGatewayModelId(name)
            case Some(d) =>
              exists prefix, m :: && (prefix == GATEWAY_PREFIX || prefix == NO_THINKING_PREFIX) && m != ""
                                  && name == prefix + "/" + (d.provider + "/" + m) && d.model == StripMarker(m)
                                  && d.forceThinking == if prefix == GATEWAY_PREFIX then None else Some(false)
            case None =>
              !exists prefix, p, m :: && (prefix == GATEWAY_PREFIX || prefix == NO_THINKING_PREFIX)
                                      && '/' !in p && m != "" && name == prefix + "/" + (p + "/" + m)
  {
    if DecodeGatewayModelId(name).None? {
      forall prefix, p, m | (prefix == GATEWAY_PREFIX || prefix == NO_THINKING_PREFIX) && '/' !in p && m != ""
        ensures name != prefix + "/" + (p + "/" + m)
      {
        GatewayIdDecodes(p, m, prefix, false);
      }
    } else {
      var outer := Partition(name).value;
      var inner := Partition(outer.1).value;
      assert name == outer.0 + "/" + (inner.0 + "/" + inner.1);
    }
  }

  /** An advertised id of a provider that is not supported is not taken literally but configured. */
  lemma UnknownProviderIsConfigured(p: string, m: string, prefix: string, context1m: bool, supported: set<string>)
    requires '/' !in p && m != "" && p !in supported && (prefix == GATEWAY_PREFIX || prefix == NO_THINKING_PREFIX)
    ensures DirectProviderModel(WithContext(prefix + "/" + (p + "/" + m), context1m), supported).None?
  {
    GatewayIdDecodes(p, m, prefix, context1m);
  }
}
