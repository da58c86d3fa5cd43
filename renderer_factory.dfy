// The renderer factory (packages/core/src/factory/MapRendererFactory.ts):
// which renderer a type string creates, which types count as supported,
// and which type is recommended. Whether the browser offers a WebGL context
// and whether a renderer's constructor succeeds are parameters.
module RendererFactory {
  import opened Wrappers
  import opened MapTypes

  /** What `createRenderer` builds: the ECharts map itself, or the deck.gl adapter. */
  datatype RendererKind = EchartsMapKind | DeckglAdapterKind

  /** `isSupported`: exactly the two renderer types the factory can build. */
  predicate IsSupported(t: string)
  {
    t == "echarts" || t == "deckgl"
  }

  /** The message of the error for any other type. */
  function UnsupportedMessage(t: string): string
  {
    "Unsupported renderer type: " + t
  }

  /**
   * `createRenderer`: "echarts" builds the ECharts map and "deckgl" the
   * adapter, failing only if that constructor fails (its message is
   * `failure`); any other type throws "Unsupported renderer type".
   */
  function CreateRenderer(t: string, constructs: RendererKind -> bool, failure: string): (r: Result<RendererKind>)
    ensures t == "echarts" && constructs(EchartsMapKind) ==> r == Ok(EchartsMapKind)
    ensures t == "deckgl" && constructs(DeckglAdapterKind) ==> r == Ok(DeckglAdapterKind)
    ensures !IsSupported(t) ==> r == Err(UnsupportedMessage(t))
  {
    if t == "echarts" then (if constructs(EchartsMapKind) then Ok(EchartsMapKind) else Err(failure))
    else if t == "deckgl" then (if constructs(DeckglAdapterKind) then Ok(DeckglAdapterKind) else Err(failure))
    else Err(UnsupportedMessage(t))
  }

  /** A supported type builds whenever its constructor succeeds; an unsupported one never builds. */
  lemma SupportedIffBuildable(t: string, failure: string)
    ensures IsSupported(t) <==> CreateRenderer(t, _ => true, failure).Ok?
  {
  }

  /**
   * `getSupportedTypes`: the values of the core's own renderer-type
   * enumeration, which has exactly the two members `isSupported` accepts.
   */
  function SupportedTypes(): (r: seq<string>)
    ensures forall t :: t in r <==> IsSupported(t)
  {
    [RendererName(ECharts), RendererName(DeckGL)]
  }

  /** Every type listed as supported is one `createRenderer` builds. */
  lemma SupportedTypesBuild(t: string, failure: string)
    requires t in SupportedTypes()
    ensures CreateRenderer(t, _ => true, failure).Ok?
  {
  }

  /** `getRecommendedType`: 3D asks for deck.gl; otherwise deck.gl iff a WebGL context exists, else ECharts. */
  function RecommendedType(mode: Option<string>, hasWebGL: bool): (t: string)
    ensures mode == Some("3d") ==> t == "deckgl"
    ensures mode != Some("3d") ==> (t == "deckgl" <==> hasWebGL)
    ensures IsSupported(t)
  {
    if mode == Some("3d") then "deckgl" else if hasWebGL then "deckgl" else "echarts"
  }
}
