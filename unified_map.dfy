// The unified map component (packages/core/src/adapters/UnifiedMapComponent.ts):
// choosing the renderer type, initialising with an optional fallback,
// switching renderers, the "not initialized" guards, `destroy` and
// `isReady`. Whether a renderer's constructor succeeds and whether WebGL is
// available are parameters; the renderers themselves are reduced to their
// kind and a serial number, and the calls made on them are recorded.
module UnifiedMap {
  import opened Wrappers
  import opened GeoTypes
  import RF = RendererFactory

  /** A renderer instance: its kind and the serial number of its creation. */
  datatype Instance = Instance(kind: RF.RendererKind, serial: nat)

  /** The configuration fields the component reads. */
  datatype UnifiedConfig = UnifiedConfig(renderType: Option<string>, mode: Option<string>, autoFallback: bool,
                                         customIcons: Option<map<string, string>>)

  const NotInitialized: string := "Renderer not initialized"
  const NoRenderer: string := "Failed to initialize any available renderer"
  const ConstructorFailed: string := "renderer constructor failed"

  /** `config.renderType || getRecommendedType(config)`: an empty or missing type defers to the recommendation. */
  function ChosenType(c: UnifiedConfig, hasWebGL: bool): (t: string)
    ensures c.renderType.Some? && c.renderType.value != "" ==> t == c.renderType.value
    ensures c.renderType.None? || c.renderType == Some("") ==> t == RF.RecommendedType(c.mode, hasWebGL)
  {
    if c.renderType.Some? && c.renderType.value != "" then c.renderType.value else RF.RecommendedType(c.mode, hasWebGL)
  }

  /** The other of the two renderers: ECharts after deck.gl, deck.gl after anything else. */
  function Alternative(t: string): (r: string)
    ensures RF.IsSupported(r) && r != t
  {
    if t == "deckgl" then "echarts" else "deckgl"
  }

  class UnifiedMapComponent {
    var renderer: Option<Instance>
    var renderType: string
    var isInitialized: bool
    var created: nat
    var destroyed: seq<Instance>
    var iconRegistrations: seq<map<string, string>>
    var geoDataWrites: seq<FeatureCollection>
    /** The reason the constructor's unawaited `initRenderer` promise rejected with, if it did. */
    var initError: Option<string>
    const config: UnifiedConfig

    /** Whatever the renderer holds is one of the instances created so far. */
    ghost predicate Valid()
      reads this
    {
      renderer.Some? ==> renderer.value.serial < created
    }

    /**
     * The constructor: picks the type and runs `initRenderer`, whose failure
     * rejects the promise it returns rather than the constructor.
     */
    constructor (c: UnifiedConfig, hasWebGL: bool, constructs: RF.RendererKind -> bool)
      ensures Valid() && config == c
      ensures destroyed == [] && geoDataWrites == []
      ensures var first := RF.CreateRenderer(ChosenType(c, hasWebGL), constructs, ConstructorFailed);
              first.Ok? ==> renderType == ChosenType(c, hasWebGL) && renderer == Some(Instance(first.value, 0))
                            && isInitialized && initError.None?
                            && iconRegistrations == (if c.customIcons.Some? && first.value == RF.DeckglAdapterKind then [c.customIcons.value] else [])
      ensures var first := RF.CreateRenderer(ChosenType(c, hasWebGL), constructs, ConstructorFailed);
              first.Err? && !c.autoFallback ==> renderer.None? && !isInitialized && initError == Some(first.message)
      ensures var first := RF.CreateRenderer(ChosenType(c, hasWebGL), constructs, ConstructorFailed);
              var alt := Alternative(ChosenType(c, hasWebGL));
              first.Err? && c.autoFallback ==>
                renderType == alt && iconRegistrations == []
                && (RF.CreateRenderer(alt, constructs, ConstructorFailed).Ok? ==>
                      renderer == Some(Instance(RF.CreateRenderer(alt, constructs, ConstructorFailed).value, 0)) && isInitialized && initError.None?)
                && (RF.CreateRenderer(alt, constructs, ConstructorFailed).Err? ==>
                      renderer.None? && !isInitialized && initError == Some(NoRenderer))
    {
      config := c;
      var chosen := ChosenType(c, hasWebGL);
      renderType := chosen;
      renderer := None;
      isInitialized := false;
      created := 0;
      destroyed := [];
      iconRegistrations := [];
      geoDataWrites := [];
      initError := None;
      var first := RF.CreateRenderer(chosen, constructs, ConstructorFailed);
      if first.Ok? {
        renderer := Some(Instance(first.value, 0));
        created := 1;
        if c.customIcons.Some? && first.value == RF.DeckglAdapterKind {
          iconRegistrations := [c.customIcons.value];
        }
        isInitialized := true;
      } else if c.autoFallback {
        var alt := Alternative(chosen);
        renderType := alt;
        var second := RF.CreateRenderer(alt, constructs, ConstructorFailed);
        if second.Ok? {
          renderer := Some(Instance(second.value, 0));
          created := 1;
          isInitialized := true;
        } else {
          initError := Some(NoRenderer);
        }
      } else {
        initError := Some(first.message);
      }
    }

    function GetCurrentRendererType(): string
      reads this
    {
      renderType
    }

    /** `isReady` is the initialised flag. */
    function IsReady(): (r: bool)
      reads this
      ensures r == isInitialized
    {
      isInitialized
    }

    /**
     * `switchRenderer`: the same type does nothing; otherwise the current
     * renderer is destroyed and a new one of the given type created. If that
     * throws, the type has already changed and the destroyed renderer stays.
     */
    method SwitchRenderer(t: string, constructs: RF.RendererKind -> bool) returns (error: Option<string>)
      requires Valid()
      modifies this
      ensures Valid()
      ensures t == old(renderType) ==> error.None? && renderer == old(renderer) && renderType == old(renderType)
                                       && destroyed == old(destroyed) && isInitialized == old(isInitialized)
      ensures t != old(renderType) ==>
                renderType == t
                && destroyed == old(destroyed) + (if old(renderer).Some? then [old(renderer).value] else [])
                && var made := RF.CreateRenderer(t, constructs, ConstructorFailed);
                   (made.Ok? ==> error.None? && renderer == Some(Instance(made.value, old(created))) && isInitialized)
                   && (made.Err? ==> error == Some(made.message) && renderer == old(renderer) && isInitialized == old(isInitialized))
      ensures iconRegistrations == old(iconRegistrations) && geoDataWrites == old(geoDataWrites)
    {
      if t == renderType {
        return None;
      }
      if renderer.Some? {
        destroyed := destroyed + [renderer.value];
      }
      renderType := t;
      var made := RF.CreateRenderer(t, constructs, ConstructorFailed);
      if made.Err? {
        return Some(made.message);
      }
      renderer := Some(Instance(made.value, created));
      created := created + 1;
      isInitialized := true;
      return None;
    }

    /** `setGeoData`: throws without a renderer; otherwise the data goes to the navigation state. */
    method SetGeoData(boundary: FeatureCollection) returns (error: Option<string>)
      modifies this`geoDataWrites
      ensures renderer.None? ==> error == Some(NotInitialized) && geoDataWrites == old(geoDataWrites)
      ensures renderer.Some? ==> error.None? && geoDataWrites == old(geoDataWrites) + [boundary]
    {
      if renderer.None? {
        return Some(NotInitialized);
      }
      geoDataWrites := geoDataWrites + [boundary];
      return None;
    }

    /**
     * The guard shared by `setPoints`, `setLines`, `updateMapLevel`,
     * `setPointStyle` and `resize`: each throws without a renderer and,
     * with one, changes nothing the component holds.
     */
    method RequireRenderer() returns (error: Option<string>)
      ensures error.Some? <==> renderer.None?
      ensures error.Some? ==> error.value == NotInitialized
    {
      if renderer.None? {
        return Some(NotInitialized);
      }
      return None;
    }

    /** `registerExtraIcons`: throws without a renderer; only the deck.gl adapter takes the icons. */
    method RegisterExtraIcons(icons: map<string, string>) returns (error: Option<string>)
      modifies this`iconRegistrations
      ensures renderer.None? ==> error == Some(NotInitialized) && iconRegistrations == old(iconRegistrations)
      ensures renderer.Some? ==>
                error.None? && iconRegistrations == old(iconRegistrations) + (if renderer.value.kind == RF.DeckglAdapterKind then [icons] else [])
    {
      if renderer.None? {
        return Some(NotInitialized);
      }
      if renderer.value.kind == RF.DeckglAdapterKind {
        iconRegistrations := iconRegistrations + [icons];
      }
      return None;
    }

    /** `destroy`: the renderer, if any, is destroyed and dropped; the component is no longer ready. */
    method Destroy()
      requires Valid()
      modifies this`renderer, this`destroyed, this`isInitialized
      ensures Valid()
      ensures renderer.None? && !isInitialized
      ensures destroyed == old(destroyed) + (if old(renderer).Some? then [old(renderer).value] else [])
    {
      if renderer.Some? {
        destroyed := destroyed + [renderer.value];
        renderer := None;
      }
      isInitialized := false;
    }
  }

  /** A second `destroy` changes nothing: no renderer is destroyed twice. */
  method DestroyTwice(u: UnifiedMapComponent)
    requires u.Valid()
    modifies u
    ensures u.renderer.None? && !u.isInitialized && !u.IsReady()
    ensures u.destroyed == old(u.destroyed) + (if old(u.renderer).Some? then [old(u.renderer).value] else [])
  {
    u.Destroy();
    u.Destroy();
  }

  /** With fallback on, a deck.gl failure still leaves an ECharts map ready, whatever WebGL says. */
  method FallbackFromDeckgl() returns (u: UnifiedMapComponent, error: Option<string>)
    ensures error.None? && u.IsReady() && u.GetCurrentRendererType() == "echarts"
    ensures u.renderer == Some(Instance(RF.EchartsMapKind, 0))
  {
    var c := UnifiedConfig(Some("deckgl"), None, true, None);
    u := new UnifiedMapComponent(c, true, k => k == RF.EchartsMapKind);
    error := u.initError;
  }
}
