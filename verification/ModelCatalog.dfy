/** The advertised model list (api/model_catalog.py) and the Codex catalog built from it
    (cli/codex_model_catalog.py), followed end to end. */
module ModelCatalog {
  import opened Base
  import opened ModelIds

  datatype ModelResponse = ModelResponse(id: string, displayName: string)

  /** A configured or cached model: its provider/model ref, and whether it supports thinking. */
  datatype Info = Info(ref: string, supportsThinking: Option<bool>)

  const CLAUDE_MODELS: seq<ModelResponse> := [
    ModelResponse("claude-opus-4-20250514", "Claude Opus 4"),
    ModelResponse("claude-sonnet-4-20250514", "Claude Sonnet 4"),
    ModelResponse("claude-haiku-4-20250514", "Claude Haiku 4"),
    ModelResponse("claude-3-opus-20240229", "Claude 3 Opus"),
    ModelResponse("claude-3-5-sonnet-20241022", "Claude 3.5 Sonnet"),
    ModelResponse("claude-3-haiku-20240307", "Claude 3 Haiku"),
    ModelResponse("claude-3-5-haiku-20241022", "Claude 3.5 Haiku")]

  /** Keep the first model for each id. */
  function FirstById(models: seq<ModelResponse>): (kept: seq<ModelResponse>) {
    if models == [] then []
    else
      var before, last := FirstById(models[..|models| - 1]), models[|models| - 1];
      if last.id in Ids(before) then before else before + [last]
  }

  function Ids(models: seq<ModelResponse>): (ids: seq<string>)
    ensures |ids| == |models| && forall i :: 0 <= i < |ids| ==> ids[i] == models[i].id
  {
    seq(|models|, i requires 0 <= i < |models| => models[i].id)
  }

  function Variants(info: Info, context1m: bool): seq<ModelResponse> {
    (if info.supportsThinking == Some(false) then []
     else [ModelResponse(GatewayModelId(info.ref, context1m), info.ref)])
    + [ModelResponse(NoThinkingGatewayModelId(info.ref, context1m), info.ref + " (no thinking)")]
  }

  function AllVariants(infos: seq<Info>, marked: set<string>): seq<ModelResponse> {
    if infos == [] then []
    else
      var last := infos[|infos| - 1];
      AllVariants(infos[..|infos| - 1], marked) + Variants(last, last.ref in marked)
  }

  /** The list response: all variants in order, then the compatibility models, first id wins. */
  function Advertised(infos: seq<Info>, marked: set<string>): seq<ModelResponse> {
    FirstById(AllVariants(infos, marked) + CLAUDE_MODELS)
  }

  lemma FirstByIdAppend(models: seq<ModelResponse>, m: ModelResponse)
    ensures var kept := FirstById(models);
            FirstById(models + [m]) == if m.id in Ids(kept) then kept else kept + [m]
  {
    assert (models + [m])[..|models|] == models;
  }

  lemma IdsAppend(models: seq<ModelResponse>, m: ModelResponse)
    ensures Ids(models + [m]) == Ids(models) + [m.id]
  {
  }

  /** Nothing is lost and nothing is listed twice. */
  lemma {:induction false} FirstByIdKeeps(models: seq<ModelResponse>)
    ensures forall id :: id in Ids(FirstById(models)) <==> id in Ids(models)
    ensures forall i, j :: 0 <= i < j < |FirstById(models)| ==> FirstById(models)[i].id != FirstById(models)[j].id
  {
    if models != [] {
      var before, last := models[..|models| - 1], models[|models| - 1];
      FirstByIdKeeps(before);
      assert models == before + [last];
      IdsAppend(before, last);
      IdsAppend(FirstById(before), last);
    }
  }

  ghost predicate Knows(seen: set<string>, models: seq<ModelResponse>) {
    forall id :: id in seen <==> id in Ids(models)
  }

  method AppendUniqueModel(models: seq<ModelResponse>, seen: set<string>, m: ModelResponse,
      ghost all: seq<ModelResponse>)
    returns (models': seq<ModelResponse>, seen': set<string>)
    requires models == FirstById(all) && Knows(seen, models)
    ensures models' == FirstById(all + [m]) && Knows(seen', models')
  {
    FirstByIdAppend(all, m);
    IdsAppend(models, m);
    if m.id in seen {
      return models, seen;
    }
    return models + [m], seen + {m.id};
  }

  method AppendUniqueModels(models: seq<ModelResponse>, seen: set<string>, more: seq<ModelResponse>,
      ghost all: seq<ModelResponse>)
    returns (models': seq<ModelResponse>, seen': set<string>)
    requires models == FirstById(all) && Knows(seen, models)
    ensures models' == FirstById(all + more) && Knows(seen', models')
  {
    models', seen' := models, seen;
    assert all + more[..0] == all;
    for n := 0 to |more|
      invariant models' == FirstById(all + more[..n]) && Knows(seen', models')
    {
      assert all + more[..n] + [more[n]] == all + more[..n + 1];
      models', seen' := AppendUniqueModel(models', seen', more[n], all + more[..n]);
    }
    assert more[..|more|] == more;
  }

  method AppendProviderModelVariants(models: seq<ModelResponse>, seen: set<string>, info: Info, context1m: bool,
      ghost all: seq<ModelResponse>)
    returns (models': seq<ModelResponse>, seen': set<string>)
    requires models == FirstById(all) && Knows(seen, models)
    ensures models' == FirstById(all + Variants(info, context1m)) && Knows(seen', models')
  {
    models', seen' := models, seen;
    ghost var soFar := all;
    if info.supportsThinking != Some(false) {
      var normal := ModelResponse(GatewayModelId(info.ref, context1m), info.ref);
      models', seen' := AppendUniqueModel(models', seen', normal, all);
      soFar := all + [normal];
    }
    var quiet := ModelResponse(NoThinkingGatewayModelId(info.ref, context1m), info.ref + " (no thinking)");
    models', seen' := AppendUniqueModel(models', seen', quiet, soFar);
    assert soFar + [quiet] == all + Variants(info, context1m);
  }

  /** `build_models_list_response`. Without a registry thinking support is unknown and there are
      no cached models. */
  method BuildModelsListResponse(configured: seq<Info>, cached: Option<seq<Info>>, marked: set<string>)
    returns (models: seq<ModelResponse>)
    ensures models == Advertised(Listed(configured, cached), marked)
  {
    models := [];
    var seen: set<string> := {};
    var infos := Listed(configured, cached);
    for n := 0 to |infos|
      invariant models == FirstById(AllVariants(infos[..n], marked)) && Knows(seen, models)
    {
      assert infos[..n + 1][..n] == infos[..n];
      models, seen := AppendProviderModelVariants(models, seen, infos[n], infos[n].ref in marked,
          AllVariants(infos[..n], marked));
    }
    assert infos[..|infos|] == infos;
    ghost var variants := AllVariants(infos, marked);
    models, seen := AppendUniqueModels(models, seen, CLAUDE_MODELS, variants);
  }

  function Listed(configured: seq<Info>, cached: Option<seq<Info>>): seq<Info> {
    match cached
    case Some(more) => configured + more
    case None => Forgetful(configured)
  }

  function Forgetful(infos: seq<Info>): seq<Info> {
    seq(|infos|, i requires 0 <= i < |infos| => Info(infos[i].ref, None))
  }

  lemma {:induction false} VariantIds(infos: seq<Info>, marked: set<string>, id: string)
    ensures id in Ids(AllVariants(infos, marked)) <==>
              exists n :: 0 <= n < |infos| && id in Ids(Variants(infos[n], infos[n].ref in marked))
  {
    if infos != [] {
      var before, last := infos[..|infos| - 1], infos[|infos| - 1];
      VariantIds(before, marked, id);
      var a, b := AllVariants(before, marked), Variants(last, last.ref in marked);
      assert AllVariants(infos, marked) == a + b;
      assert id in Ids(a + b) <==> id in Ids(a) || id in Ids(b) by {
        ConcatIds(a, b);
      }
      assert forall n :: 0 <= n < |before| ==> before[n] == infos[n];
    }
  }

  lemma ConcatIds(a: seq<ModelResponse>, b: seq<ModelResponse>)
    ensures Ids(a + b) == Ids(a) + Ids(b)
  {
  }

  /** Exactly the ids of the variants and the compatibility models are advertised, each once. */
  lemma AdvertisedIds(infos: seq<Info>, marked: set<string>)
    ensures var models := Advertised(infos, marked);
            forall i, j :: 0 <= i < j < |models| ==> models[i].id != models[j].id
    ensures forall id :: id in Ids(Advertised(infos, marked)) <==>
              id in Ids(CLAUDE_MODELS)
              || exists n :: 0 <= n < |infos| && id in Ids(Variants(infos[n], infos[n].ref in marked))
  {
    FirstByIdKeeps(AllVariants(infos, marked) + CLAUDE_MODELS);
    ConcatIds(AllVariants(infos, marked), CLAUDE_MODELS);
    forall id ensures id in Ids(AllVariants(infos, marked)) <==>
              exists n :: 0 <= n < |infos| && id in Ids(Variants(infos[n], infos[n].ref in marked)) {
      VariantIds(infos, marked, id);
    }
  }

  // The Codex catalog.

  datatype Candidate = Candidate(slug: string, ref: string, forceNoThinking: bool)

  predicate IsProviderModelRef(s: string, supported: set<string>) {
    var parts := Partition(s);
    parts.Some? && parts.value.1 != "" && parts.value.0 in supported
  }

  function CandidateFromModelId(id: string, supported: set<string>): Option<Candidate> {
    var parts := Partition(id);
    if parts.None? then None
    else
      var (prefix, rest) := parts.value;
      if prefix == GATEWAY_PREFIX then
        if IsProviderModelRef(rest, supported) then Some(Candidate(rest, rest, false)) else None
      else if prefix == NO_THINKING_PREFIX then
        if IsProviderModelRef(rest, supported) then Some(Candidate(id, rest, true)) else None
      else if prefix in supported && rest != "" then Some(Candidate(id, id, false))
      else None
  }

  /** Candidates of a model list; a list entry without a string id is None. */
  function Candidates(data: seq<Option<string>>, supported: set<string>): seq<Candidate> {
    if data == [] then []
    else
      var last := data[|data| - 1];
      var c := if last.Some? then CandidateFromModelId(StripMarker(last.value), supported) else None;
      Candidates(data[..|data| - 1], supported) + if c.Some? then [c.value] else []
  }

  function NormalRefs(cs: seq<Candidate>): (refs: set<string>) {
    set c | c in cs && !c.forceNoThinking :: c.ref
  }

  predicate Shown(c: Candidate, normal: set<string>) {
    !(c.forceNoThinking && c.ref in normal)
  }

  /** The slugs of the shown candidates, each at its first occurrence. */
  function Slugs(cs: seq<Candidate>, normal: set<string>): (slugs: seq<string>)
    ensures forall s :: s in slugs <==> exists c :: c in cs && Shown(c, normal) && c.slug == s
    ensures forall i, j :: 0 <= i < j < |slugs| ==> slugs[i] != slugs[j]
  {
    if cs == [] then []
    else
      var before, last := Slugs(cs[..|cs| - 1], normal), cs[|cs| - 1];
      assert forall c :: c in cs <==> c in cs[..|cs| - 1] || c == last;
      if Shown(last, normal) && last.slug !in before then before + [last.slug] else before
  }

  method CatalogCandidates(data: seq<Option<string>>, supported: set<string>) returns (cs: seq<Candidate>)
    ensures cs == Candidates(data, supported)
  {
    cs := [];
    for n := 0 to |data|
      invariant cs == Candidates(data[..n], supported)
    {
      assert data[..n + 1][..n] == data[..n];
      if data[n].Some? {
        var c := CandidateFromModelId(StripMarker(data[n].value), supported);
        if c.Some? {
          cs := cs + [c.value];
        }
      }
    }
    assert data[..|data|] == data;
  }

  /** `build_codex_model_catalog`, as the sequence of slugs; a slug's priority is its position. */
  method BuildCodexModelCatalog(data: seq<Option<string>>, supported: set<string>) returns (slugs: seq<string>)
    ensures slugs == Slugs(Candidates(data, supported), NormalRefs(Candidates(data, supported)))
  {
    var cs := CatalogCandidates(data, supported);
    var normal := NormalRefs(cs);
    slugs := [];
    var seenSlugs: set<string> := {};
    for n := 0 to |cs|
      invariant slugs == Slugs(cs[..n], normal)
      invariant forall s :: s in seenSlugs <==> s in slugs
    {
      assert cs[..n + 1][..n] == cs[..n];
      if cs[n].forceNoThinking && cs[n].ref in normal {
        continue;
      }
      if cs[n].slug in seenSlugs {
        continue;
      }
      seenSlugs := seenSlugs + {cs[n].slug};
      slugs := slugs + [cs[n].slug];
    }
    assert cs[..|cs|] == cs;
  }

  function ListIds(models: seq<ModelResponse>): seq<Option<string>> {
    seq(|models|, i requires 0 <= i < |models| => Some(models[i].id))
  }

  function CodexSlugs(infos: seq<Info>, marked: set<string>, supported: set<string>): seq<string> {
    var cs := Candidates(ListIds(Advertised(infos, marked)), supported);
    Slugs(cs, NormalRefs(cs))
  }

  // End to end.

  /** The provider ids of the shipped catalog; custom modules may register more. */
  const SHIPPED_PROVIDER_IDS: set<string> := {
    "nvidia_nim", "open_router", "gemini", "vertex_ai", "deepseek", "mistral", "mistral_codestral",
    "opencode", "opencode_go", "wafer", "kimi", "cerebras", "cloudflare_ai", "groq", "fireworks",
    "zai", "lmstudio", "llamacpp", "ollama", "freebuff"}

  /** What the catalog makes of a listed ref: its id is stripped of one marker, the one that was
      added to it or one of its own. */
  function Effective(info: Info, marked: set<string>): string {
    if info.ref in marked then info.ref else StripMarker(info.ref)
  }

  ghost predicate IsListed(infos: seq<Info>, marked: set<string>, ref: string) {
    exists n :: 0 <= n < |infos| && Effective(infos[n], marked) == ref
  }

  /** Some listing of the ref allows thinking. */
  ghost predicate Thinks(infos: seq<Info>, marked: set<string>, ref: string) {
    exists n :: 0 <= n < |infos| && Effective(infos[n], marked) == ref && infos[n].supportsThinking != Some(false)
  }

  /** The provider is not called like a gateway prefix. */
  predicate PlainProvider(ref: string) {
    var parts := Partition(ref);
    parts.Some? ==> parts.value.0 != GATEWAY_PREFIX && parts.value.0 != NO_THINKING_PREFIX
  }

  ghost predicate PlainProviders(infos: seq<Info>, marked: set<string>, supported: set<string>) {
    forall n :: 0 <= n < |infos| && IsProviderModelRef(Effective(infos[n], marked), supported) ==>
      PlainProvider(Effective(infos[n], marked))
  }

  /** No shipped provider is called like a gateway prefix. */
  lemma ShippedProvidersArePlain(infos: seq<Info>, marked: set<string>)
    ensures PlainProviders(infos, marked, SHIPPED_PROVIDER_IDS)
  {
    PrefixesNotShipped();
  }

  lemma PrefixesNotShipped()
    ensures GATEWAY_PREFIX !in SHIPPED_PROVIDER_IDS && NO_THINKING_PREFIX !in SHIPPED_PROVIDER_IDS
  {
    assert |NO_THINKING_PREFIX| > 20 && GATEWAY_PREFIX[0] == 'a';
    assert forall p :: p in SHIPPED_PROVIDER_IDS ==> |p| < 20 && p[0] != 'a';
  }

  /** A well-formed ref: provider, slash, model; the model does not end in the context marker and
      the provider is not called like a gateway prefix. */
  ghost predicate GoodRef(ref: string, supported: set<string>) {
    IsProviderModelRef(ref, supported) && !HasMarker(ref) && PlainProvider(ref)
  }

  ghost predicate GoodInfos(infos: seq<Info>, supported: set<string>) {
    forall n :: 0 <= n < |infos| ==> GoodRef(infos[n].ref, supported)
  }

  lemma {:induction false} CandidatesAre(data: seq<Option<string>>, supported: set<string>, c: Candidate)
    ensures c in Candidates(data, supported) <==>
              exists n :: && 0 <= n < |data| && data[n].Some?
                          && CandidateFromModelId(StripMarker(data[n].value), supported) == Some(c)
  {
    if data != [] {
      CandidatesAre(data[..|data| - 1], supported, c);
      var last := data[|data| - 1];
      assert forall n :: 0 <= n < |data| - 1 ==> data[..|data| - 1][n] == data[n];
      assert c in Candidates(data, supported) <==>
        c in Candidates(data[..|data| - 1], supported)
        || (last.Some? && CandidateFromModelId(StripMarker(last.value), supported) == Some(c));
    }
  }

  /** The normal or the no-thinking candidate of a ref, if it is one. */
  function Form(ref: string, forceNoThinking: bool, supported: set<string>): Option<Candidate> {
    if !IsProviderModelRef(ref, supported) then None
    else Some(Candidate(if forceNoThinking then NO_THINKING_PREFIX + "/" + ref else ref, ref, forceNoThinking))
  }

  lemma MarkerComesOff(prefix: string, ref: string, context1m: bool)
    ensures StripMarker(WithContext(prefix + "/" + ref, context1m))
         == prefix + "/" + if context1m then ref else StripMarker(ref)
  {
    StripAdded(prefix + "/" + ref);
    MarkerSitsInModel(prefix, ref);
  }

  /** An advertised id leads to the candidate of its ref, whatever its marker. */
  lemma CandidateOfVariant(prefix: string, info: Info, marked: set<string>, supported: set<string>)
    requires prefix == GATEWAY_PREFIX || prefix == NO_THINKING_PREFIX
    ensures CandidateFromModelId(StripMarker(WithContext(prefix + "/" + info.ref, info.ref in marked)), supported)
         == Form(Effective(info, marked), prefix == NO_THINKING_PREFIX, supported)
  {
    MarkerComesOff(prefix, info.ref, info.ref in marked);
    assert Partition(prefix + "/" + Effective(info, marked)) == Some((prefix, Effective(info, marked))) by {
      assert '/' !in prefix;
      PartitionIs(prefix, Effective(info, marked));
    }
  }

  lemma ClaudeIdsHaveNoSlash(id: string)
    requires id in Ids(CLAUDE_MODELS)
    ensures '/' !in StripMarker(id)
  {
    var n :| 0 <= n < |CLAUDE_MODELS| && CLAUDE_MODELS[n].id == id;
    ClaudeIdHasNoSlash(n);
    forall c | c in StripMarker(id) ensures c in id {
    }
  }

  lemma ClaudeIdHasNoSlash(n: nat)
    requires n < |CLAUDE_MODELS|
    ensures '/' !in CLAUDE_MODELS[n].id
  {
    NamesHaveNoSlash();
    var ids := [CLAUDE_MODELS[0].id, CLAUDE_MODELS[1].id, CLAUDE_MODELS[2].id, CLAUDE_MODELS[3].id,
                CLAUDE_MODELS[4].id, CLAUDE_MODELS[5].id, CLAUDE_MODELS[6].id];
    assert ids[n] == CLAUDE_MODELS[n].id;
  }

  lemma NamesHaveNoSlash()
    ensures '/' !in "claude-opus-4-20250514" && '/' !in "claude-sonnet-4-20250514"
    ensures '/' !in "claude-haiku-4-20250514" && '/' !in "claude-3-opus-20240229"
    ensures '/' !in "claude-3-5-sonnet-20241022" && '/' !in "claude-3-haiku-20240307"
    ensures '/' !in "claude-3-5-haiku-20241022"
  {
  }

  ghost predicate Offered(infos: seq<Info>, marked: set<string>, ref: string, forceNoThinking: bool) {
    if forceNoThinking then IsListed(infos, marked, ref) else Thinks(infos, marked, ref)
  }

  /** An advertised id that still has a slash is the variant of some listed ref. */
  lemma OriginOf(infos: seq<Info>, marked: set<string>, id: string) returns (k: nat)
    requires id in Ids(Advertised(infos, marked)) && Partition(StripMarker(id)).Some?
    ensures k < |infos| && id in Ids(Variants(infos[k], infos[k].ref in marked))
  {
    AdvertisedIds(infos, marked);
    if id in Ids(CLAUDE_MODELS) {
      ClaudeIdsHaveNoSlash(id);
      assert false;
    }
    k :| 0 <= k < |infos| && id in Ids(Variants(infos[k], infos[k].ref in marked));
  }

  lemma CandidateIsOffered(infos: seq<Info>, marked: set<string>, supported: set<string>, c: Candidate)
    requires c in Candidates(ListIds(Advertised(infos, marked)), supported)
    ensures Form(c.ref, c.forceNoThinking, supported) == Some(c) && Offered(infos, marked, c.ref, c.forceNoThinking)
  {
    var models := Advertised(infos, marked);
    var data := ListIds(models);
    CandidatesAre(data, supported, c);
    var n :| 0 <= n < |data| && data[n].Some? && CandidateFromModelId(StripMarker(data[n].value), supported) == Some(c);
    var id := Ids(models)[n];
    var k := OriginOf(infos, marked, id);
    VariantCandidates(infos[k], marked, supported, id);
  }

  lemma OfferedIsCandidate(infos: seq<Info>, marked: set<string>, supported: set<string>, c: Candidate)
    requires Form(c.ref, c.forceNoThinking, supported) == Some(c) && Offered(infos, marked, c.ref, c.forceNoThinking)
    ensures c in Candidates(ListIds(Advertised(infos, marked)), supported)
  {
    var k :| 0 <= k < |infos| && Effective(infos[k], marked) == c.ref
             && (c.forceNoThinking || infos[k].supportsThinking != Some(false));
    var prefix := if c.forceNoThinking then NO_THINKING_PREFIX else GATEWAY_PREFIX;
    var id := VariantListed(infos, marked, k, prefix);
    CandidateOfVariant(prefix, infos[k], marked, supported);
    ListedCandidate(Advertised(infos, marked), id, supported, c);
  }

  /** The candidates drawn from any advertised list: one normal form per ref that may think, one
      no-thinking form per ref, for the refs that name a supported provider. */
  lemma AdvertisedCandidates(infos: seq<Info>, marked: set<string>, supported: set<string>, c: Candidate)
    ensures c in Candidates(ListIds(Advertised(infos, marked)), supported)
       <==> Form(c.ref, c.forceNoThinking, supported) == Some(c) && Offered(infos, marked, c.ref, c.forceNoThinking)
  {
    if c in Candidates(ListIds(Advertised(infos, marked)), supported) {
      CandidateIsOffered(infos, marked, supported, c);
    } else if Form(c.ref, c.forceNoThinking, supported) == Some(c) && Offered(infos, marked, c.ref, c.forceNoThinking) {
      OfferedIsCandidate(infos, marked, supported, c);
    }
  }

  lemma VariantListed(infos: seq<Info>, marked: set<string>, k: nat, prefix: string) returns (id: string)
    requires k < |infos|
    requires prefix == NO_THINKING_PREFIX || (prefix == GATEWAY_PREFIX && infos[k].supportsThinking != Some(false))
    ensures id == WithContext(prefix + "/" + infos[k].ref, infos[k].ref in marked)
        && id in Ids(Advertised(infos, marked))
  {
    var v := Variants(infos[k], infos[k].ref in marked);
    var at := if prefix == NO_THINKING_PREFIX then |v| - 1 else 0;
    id := Ids(v)[at];
    AdvertisedIds(infos, marked);
  }

  lemma ListedCandidate(models: seq<ModelResponse>, id: string, supported: set<string>, c: Candidate)
    requires id in Ids(models) && CandidateFromModelId(StripMarker(id), supported) == Some(c)
    ensures c in Candidates(ListIds(models), supported)
  {
    CandidatesAre(ListIds(models), supported, c);
    var n :| 0 <= n < |models| && Ids(models)[n] == id;
    assert ListIds(models)[n] == Some(id);
  }

  lemma VariantCandidates(info: Info, marked: set<string>, supported: set<string>, id: string)
    requires id in Ids(Variants(info, info.ref in marked))
    ensures var c := CandidateFromModelId(StripMarker(id), supported);
            || (c == Form(Effective(info, marked), false, supported) && info.supportsThinking != Some(false))
            || c == Form(Effective(info, marked), true, supported)
  {
    if id == NoThinkingGatewayModelId(info.ref, info.ref in marked) {
      CandidateOfVariant(NO_THINKING_PREFIX, info, marked, supported);
    } else {
      VariantIdsAre(info, info.ref in marked, id);
      CandidateOfVariant(GATEWAY_PREFIX, info, marked, supported);
    }
  }

  lemma VariantIdsAre(info: Info, context1m: bool, id: string)
    requires id in Ids(Variants(info, context1m))
    ensures || (id == GatewayModelId(info.ref, context1m) && info.supportsThinking != Some(false))
            || id == NoThinkingGatewayModelId(info.ref, context1m)
  {
    var v := Variants(info, context1m);
    var n :| 0 <= n < |v| && Ids(v)[n] == id;
  }

  /** What a slug routes to. */
  function RouteOf(slug: string, supported: set<string>): Option<(string, string)> {
    var d := DirectProviderModel(slug, supported);
    if d.Some? then Some((d.value.provider, d.value.model)) else None
  }

  /** The router strips another marker, in either form. */
  lemma SlugRoutes(ref: string, supported: set<string>)
    requires IsProviderModelRef(ref, supported) && PlainProvider(ref)
    ensures RouteOf(ref, supported) == Partition(StripMarker(ref))
    ensures RouteOf(NO_THINKING_PREFIX + "/" + ref, supported) == Partition(StripMarker(ref))
  {
    var (p, m) := Partition(ref).value;
    StripsInModel(p, m);
    PartitionIs(p, StripMarker(m));
    PlainRefRoutesIff(p, m, supported);
    GatewayIdDecodes(p, m, NO_THINKING_PREFIX, false);
  }

  lemma StripsInModel(p: string, m: string)
    ensures StripMarker(p + "/" + m) == p + "/" + StripMarker(m)
  {
    MarkerSitsInModel(p, m);
  }

  ghost function SlugOf(infos: seq<Info>, marked: set<string>, ref: string): string {
    if Thinks(infos, marked, ref) then ref else NO_THINKING_PREFIX + "/" + ref
  }

  /** For any list: a slug of the catalog stands for one listed ref of a supported provider, in its
      normal form iff that may think. */
  lemma SlugsAre(infos: seq<Info>, marked: set<string>, supported: set<string>, slug: string)
    ensures slug in CodexSlugs(infos, marked, supported) <==>
              exists ref :: && IsListed(infos, marked, ref) && IsProviderModelRef(ref, supported)
                            && slug == SlugOf(infos, marked, ref)
  {
    var cs := Candidates(ListIds(Advertised(infos, marked)), supported);
    var normal := NormalRefs(cs);
    forall ref ensures ref in normal <==> Thinks(infos, marked, ref) && IsProviderModelRef(ref, supported) {
      AdvertisedCandidates(infos, marked, supported, Candidate(ref, ref, false));
      if c :| c in cs && !c.forceNoThinking && c.ref == ref {
        AdvertisedCandidates(infos, marked, supported, c);
      }
    }
    if slug in CodexSlugs(infos, marked, supported) {
      var c :| c in cs && Shown(c, normal) && c.slug == slug;
      AdvertisedCandidates(infos, marked, supported, c);
      assert IsListed(infos, marked, c.ref);
    }
    if ref :| IsListed(infos, marked, ref) && IsProviderModelRef(ref, supported) && slug == SlugOf(infos, marked, ref) {
      var c := Form(ref, !Thinks(infos, marked, ref), supported).value;
      AdvertisedCandidates(infos, marked, supported, c);
      assert c in cs && Shown(c, normal);
    }
  }

  /** For any list whose providers are plain: the ref a slug stands for, less a marker, is what it
      routes to. */
  lemma SlugNames(infos: seq<Info>, marked: set<string>, supported: set<string>, slug: string) returns (ref: string)
    requires PlainProviders(infos, marked, supported) && slug in CodexSlugs(infos, marked, supported)
    ensures IsListed(infos, marked, ref) && IsProviderModelRef(ref, supported) && slug == SlugOf(infos, marked, ref)
    ensures RouteOf(slug, supported) == Partition(StripMarker(ref)) && Partition(StripMarker(ref)).Some?
  {
    SlugsAre(infos, marked, supported, slug);
    ref :| IsListed(infos, marked, ref) && IsProviderModelRef(ref, supported) && slug == SlugOf(infos, marked, ref);
    SlugRoutes(ref, supported);
    var (p, m) := Partition(ref).value;
    StripsInModel(p, m);
  }

  /** Coverage, ref by ref: whatever else is listed, a good ref has its slug in the catalog, and the
      slug routes to its provider and model. */
  lemma GoodRefIsCovered(infos: seq<Info>, marked: set<string>, supported: set<string>, n: nat)
    requires n < |infos| && GoodRef(infos[n].ref, supported)
    ensures var slug := SlugOf(infos, marked, infos[n].ref);
            slug in CodexSlugs(infos, marked, supported) && RouteOf(slug, supported) == Partition(infos[n].ref)
  {
    var ref := infos[n].ref;
    assert Effective(infos[n], marked) == ref;
    SlugsAre(infos, marked, supported, SlugOf(infos, marked, ref));
    SlugRoutes(ref, supported);
  }

  /** No listed ref differs from this one by a context marker only. */
  ghost predicate Unshadowed(infos: seq<Info>, marked: set<string>, ref: string) {
    forall n :: 0 <= n < |infos| && StripMarker(Effective(infos[n], marked)) == ref ==>
      Effective(infos[n], marked) == ref
  }

  ghost predicate OneSlugFor(slugs: seq<string>, supported: set<string>, ref: string) {
    forall i, j :: 0 <= i < j < |slugs| ==>
      !(RouteOf(slugs[i], supported) == RouteOf(slugs[j], supported) == Partition(ref))
  }

  /** Uniqueness, ref by ref: a good listed ref has exactly one slug iff no other listed ref differs
      from it by a context marker only. */
  lemma OneSlugIff(infos: seq<Info>, marked: set<string>, supported: set<string>, n: nat)
    requires n < |infos| && GoodRef(infos[n].ref, supported) && PlainProviders(infos, marked, supported)
    ensures OneSlugFor(CodexSlugs(infos, marked, supported), supported, infos[n].ref)
       <==> Unshadowed(infos, marked, infos[n].ref)
  {
    var slugs, ref := CodexSlugs(infos, marked, supported), infos[n].ref;
    if Unshadowed(infos, marked, ref) {
      forall i, j | 0 <= i < j < |slugs|
        ensures !(RouteOf(slugs[i], supported) == RouteOf(slugs[j], supported) == Partition(ref))
      {
        RouteNamesRef(infos, marked, supported, slugs[i], ref);
        RouteNamesRef(infos, marked, supported, slugs[j], ref);
      }
    } else {
      var k :| 0 <= k < |infos| && StripMarker(Effective(infos[k], marked)) == ref
          && Effective(infos[k], marked) != ref;
      ShadowHasSlug(infos, marked, supported, n, k);
    }
  }

  lemma RouteNamesRef(infos: seq<Info>, marked: set<string>, supported: set<string>, slug: string, ref: string)
    requires PlainProviders(infos, marked, supported) && slug in CodexSlugs(infos, marked, supported)
    requires Unshadowed(infos, marked, ref)
    ensures RouteOf(slug, supported) == Partition(ref) ==> slug == SlugOf(infos, marked, ref)
  {
    var e := SlugNames(infos, marked, supported, slug);
    if RouteOf(slug, supported) == Partition(ref) {
      assert StripMarker(e) == ref;
    }
  }

  lemma ShadowHasSlug(infos: seq<Info>, marked: set<string>, supported: set<string>, n: nat, k: nat)
    requires n < |infos| && GoodRef(infos[n].ref, supported) && k < |infos|
    requires StripMarker(Effective(infos[k], marked)) == infos[n].ref != Effective(infos[k], marked)
    ensures !OneSlugFor(CodexSlugs(infos, marked, supported), supported, infos[n].ref)
  {
    var slugs, ref, other := CodexSlugs(infos, marked, supported), infos[n].ref, Effective(infos[k], marked);
    var mine, its := SlugOf(infos, marked, ref), SlugOf(infos, marked, other);
    GoodRefIsCovered(infos, marked, supported, n);
    assert its in slugs && RouteOf(its, supported) == Partition(ref) && mine != its by {
      MarkedSibling(ref, other);
      SlugsAre(infos, marked, supported, its);
      SlugRoutes(other, supported);
      SlugsDiffer(infos, marked, ref, other);
    }
    TwoSlugs(slugs, supported, ref, mine, its);
  }

  lemma TwoSlugs(slugs: seq<string>, supported: set<string>, ref: string, a: string, b: string)
    requires a in slugs && b in slugs && a != b
    requires RouteOf(a, supported) == RouteOf(b, supported) == Partition(ref)
    ensures !OneSlugFor(slugs, supported, ref)
  {
    var i :| 0 <= i < |slugs| && slugs[i] == a;
    var j :| 0 <= j < |slugs| && slugs[j] == b;
  }

  /** A ref with a marker too many belongs to the same provider. */
  lemma MarkedSibling(ref: string, other: string)
    requires Partition(ref).Some? && Partition(ref).value.1 != "" && StripMarker(other) == ref != other
    ensures Partition(other).Some? && Partition(other).value.1 != ""
        && Partition(other).value.0 == Partition(ref).value.0
  {
    var (p, m) := Partition(ref).value;
    var marker := other[|ref|..];
    assert other == p + "/" + (m + marker);
    PartitionIs(p, m + marker);
  }

  lemma SamePrefix(tag: string, a: string, b: string)
    requires a != b
    ensures tag + a != tag + b
  {
    assert (tag + a)[|tag|..] == a && (tag + b)[|tag|..] == b;
  }

  lemma SlugsDiffer(infos: seq<Info>, marked: set<string>, a: string, b: string)
    requires a != b && Partition(a).Some? && Partition(b).Some? && PlainProvider(a) && PlainProvider(b)
    ensures SlugOf(infos, marked, a) != SlugOf(infos, marked, b)
  {
    SamePrefix(NO_THINKING_PREFIX + "/", a, b);
    assert '/' !in NO_THINKING_PREFIX;
    PartitionIs(NO_THINKING_PREFIX, a);
    PartitionIs(NO_THINKING_PREFIX, b);
  }

  ghost predicate Reached(slugs: seq<string>, supported: set<string>, ref: string) {
    exists i :: 0 <= i < |slugs| && RouteOf(slugs[i], supported) == Partition(ref)
  }

  /** End to end for a list of good refs: every slug of the Codex catalog routes to the provider and
      model of a listed ref; every listed ref is reached by one slug; and no two slugs reach the
      same ref. */
  lemma CatalogCoversRefsOnce(infos: seq<Info>, marked: set<string>, supported: set<string>)
    requires GoodInfos(infos, supported)
    ensures forall slug :: slug in CodexSlugs(infos, marked, supported) ==>
              exists n :: 0 <= n < |infos| && RouteOf(slug, supported) == Partition(infos[n].ref)
    ensures forall n :: 0 <= n < |infos| ==> Reached(CodexSlugs(infos, marked, supported), supported, infos[n].ref)
    ensures var slugs := CodexSlugs(infos, marked, supported);
            forall i, j :: 0 <= i < j < |slugs| ==> RouteOf(slugs[i], supported) != RouteOf(slugs[j], supported)
  {
    var slugs := CodexSlugs(infos, marked, supported);
    forall slug | slug in slugs
      ensures exists n :: 0 <= n < |infos| && RouteOf(slug, supported) == Partition(infos[n].ref)
    {
      var n := SlugOfGoodList(infos, marked, supported, slug);
    }
    forall n | 0 <= n < |infos|
      ensures Reached(slugs, supported, infos[n].ref)
    {
      GoodRefReachedOnce(infos, marked, supported, n);
    }
    forall i, j | 0 <= i < j < |slugs|
      ensures RouteOf(slugs[i], supported) != RouteOf(slugs[j], supported)
    {
      var n := SlugOfGoodList(infos, marked, supported, slugs[i]);
      GoodRefReachedOnce(infos, marked, supported, n);
    }
  }

  lemma GoodRefReachedOnce(infos: seq<Info>, marked: set<string>, supported: set<string>, n: nat)
    requires GoodInfos(infos, supported) && n < |infos|
    ensures Reached(CodexSlugs(infos, marked, supported), supported, infos[n].ref)
    ensures OneSlugFor(CodexSlugs(infos, marked, supported), supported, infos[n].ref)
  {
    assert forall k :: 0 <= k < |infos| ==> Effective(infos[k], marked) == infos[k].ref;
    var slugs, slug := CodexSlugs(infos, marked, supported), SlugOf(infos, marked, infos[n].ref);
    GoodRefIsCovered(infos, marked, supported, n);
    var i :| 0 <= i < |slugs| && slugs[i] == slug;
    OneSlugIff(infos, marked, supported, n);
  }

  lemma SlugOfGoodList(infos: seq<Info>, marked: set<string>, supported: set<string>, slug: string) returns (n: nat)
    requires GoodInfos(infos, supported) && slug in CodexSlugs(infos, marked, supported)
    ensures n < |infos| && RouteOf(slug, supported) == Partition(infos[n].ref)
  {
    assert forall k :: 0 <= k < |infos| ==> Effective(infos[k], marked) == infos[k].ref;
    var ref := SlugNames(infos, marked, supported, slug);
    n :| 0 <= n < |infos| && Effective(infos[n], marked) == ref;
  }

  /** A listed ref that differs by the marker gives the other ref a second slug. */
  lemma MarkedTwinAddsSlug()
    ensures var infos := [Info("groq/m", None), Info("groq/m[1m]", None)];
            !OneSlugFor(CodexSlugs(infos, {"groq/m[1m]"}, {"groq"}), {"groq"}, "groq/m")
  {
    var infos, marked := [Info("groq/m", None), Info("groq/m[1m]", None)], {"groq/m[1m]"};
    assert "groq" + "/" + "m" == "groq/m" && '/' !in "groq";
    PartitionIs("groq", "m");
    assert "groq/m[1m]"[..6] == "groq/m" && "groq/m[1m]"[6..] == MARKER;
    assert StripMarker("groq/m[1m]") == "groq/m" && StripMarker("groq/m") == "groq/m";
    ShadowHasSlug(infos, marked, {"groq"}, 0, 1);
  }

  // What is listed.

  /** Configured refs come first and cached ones after them, none is lost, and without a registry the
      thinking support is unknown and nothing is cached. */
  lemma ListedIs(configured: seq<Info>, cached: Option<seq<Info>>, n: nat)
    requires n < |configured| + if cached.Some? then |cached.value| else 0
    ensures |Listed(configured, cached)| == |configured| + if cached.Some? then |cached.value| else 0
    ensures var info := Listed(configured, cached)[n];
            && info.ref == (if n < |configured| then configured[n] else cached.value[n - |configured|]).ref
            && (cached.Some? ==> info == if n < |configured| then configured[n] else cached.value[n - |configured|])
            && (cached.None? ==> info.supportsThinking == None)
  {
  }

  /** Every configured or cached ref is advertised: always in its no-thinking form, and in its normal
      form unless it is known not to think. */
  lemma EveryRefIsAdvertised(infos: seq<Info>, marked: set<string>, n: nat)
    requires n < |infos|
    ensures var ids, ref := Ids(Advertised(infos, marked)), infos[n].ref;
            && NoThinkingGatewayModelId(ref, ref in marked) in ids
            && (infos[n].supportsThinking != Some(false) ==> GatewayModelId(ref, ref in marked) in ids)
  {
    var id := VariantListed(infos, marked, n, NO_THINKING_PREFIX);
    if infos[n].supportsThinking != Some(false) {
      var id' := VariantListed(infos, marked, n, GATEWAY_PREFIX);
    }
  }

  /** Earlier refs come first: listing more only adds at the end of the variants. */
  lemma {:induction false} FirstByIdExtends(models: seq<ModelResponse>, more: seq<ModelResponse>)
    ensures FirstById(models) <= FirstById(models + more)
    ensures forall m :: m in FirstById(models + more) ==> m in models + more
    decreases |more|
  {
    if more == [] {
      assert models + more == models;
      FirstByIdFrom(models);
    } else {
      var rest := more[..|more| - 1];
      FirstByIdExtends(models, rest);
      FirstByIdAppend(models + rest, more[|more| - 1]);
      assert models + rest + [more[|more| - 1]] == models + more;
      FirstByIdFrom(models + more);
    }
  }

  lemma {:induction false} FirstByIdFrom(models: seq<ModelResponse>)
    ensures forall m :: m in FirstById(models) ==> m in models
  {
    if models != [] {
      FirstByIdFrom(models[..|models| - 1]);
    }
  }

  /** The slugs, too, come in the order of the candidates. */
  lemma {:induction false} SlugsExtend(cs: seq<Candidate>, normal: set<string>, n: nat)
    requires n <= |cs|
    ensures Slugs(cs[..n], normal) <= Slugs(cs, normal)
    decreases |cs|
  {
    if n < |cs| {
      assert cs[..|cs| - 1][..n] == cs[..n];
      SlugsExtend(cs[..|cs| - 1], normal, n);
    } else {
      assert cs[..n] == cs;
    }
  }

  /** Candidates of arbitrary list entries, read off their ids: both gateway forms of a supported ref,
      and the bare ref itself. Everything else is skipped. */
  lemma CandidateOfId(p: string, rest: string, supported: set<string>)
    requires '/' !in p
    ensures var c := CandidateFromModelId(p + "/" + rest, supported);
            if p == GATEWAY_PREFIX || p == NO_THINKING_PREFIX then c == Form(rest, p == NO_THINKING_PREFIX, supported)
            else c == if p in supported && rest != ""
                then Some(Candidate(p + "/" + rest, p + "/" + rest, false)) else None
    ensures CandidateFromModelId(p, supported) == None
  {
    PartitionIs(p, rest);
  }

  /** The labels shown for the two forms. */
  lemma VariantLabels(info: Info, context1m: bool, m: ModelResponse)
    requires m in Variants(info, context1m)
    ensures m.displayName == info.ref || m.displayName == info.ref + " (no thinking)"
    ensures m.displayName == info.ref ==> m.id == GatewayModelId(info.ref, context1m)
  {
  }
}
