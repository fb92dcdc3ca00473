/** The render context `Cx` of render/src/cx.rs and the state its `Default`
    implementation sets up. Types defined in other files of the repository
    are opaque here: the constructor only ever stores none of them, an empty
    collection of them, or a value handed in. */
module Cx {
  import opened PlatformTypes
  import opened Wrappers
  import opened Registries

  /** Rust's `u64` and `u32`. */
  newtype U64 = x: int | 0 <= x < 0x1_0000_0000_0000_0000
  newtype U32 = x: int | 0 <= x < 0x1_0000_0000

  // Resource and input types whose definitions live outside cx.rs.
  type CxWindow
  type CxPass
  type CxView
  type CxGeometry
  type GeometryFingerprint(==)
  type GeometryRef
  type CxDrawShader
  type DrawShaderPtr(==)
  type DrawShaderFingerprint
  type CxFont
  type CxDrawFontAtlas
  type Turtle
  type KeyEvent
  type MouseCursor
  type CxPerFinger
  type NextFrame(==)
  type Signal(==)
  type CommandId(==)
  type CxCommandSetting
  type CxPlatformTexture
  type F32
  /** The erased value type of the registries' `Box<dyn Any>`. */
  type AnyValue

  /** The non-empty variants of `Area` are not part of this model. */
  type AreaTarget(==)
  datatype Area = Empty | NonEmpty(target: AreaTarget)

  /** Only `ImageBGRA` is used in cx.rs; the other formats are opaque. */
  type OtherTextureFormat
  datatype TextureFormat = ImageBGRA | Other(format: OtherTextureFormat)

  datatype TextureDesc = TextureDesc(
    format: TextureFormat,
    width: Option<nat>,
    height: Option<nat>,
    multisample: Option<nat>)

  datatype CxTexture = CxTexture(
    desc: TextureDesc,
    imageU32: seq<U32>,
    imageF32: seq<F32>,
    updateImage: bool,
    platform: CxPlatformTexture)

  /** The texture that occupies slot 0 of every context: a 4 by 4 BGRA image,
      one 32-bit pixel per texel, all zero, waiting to be uploaded; no float
      image and no multisampling. */
  function NullTexture(platform: CxPlatformTexture): (t: CxTexture)
    ensures t.desc.format == ImageBGRA && t.desc.multisample == None
    ensures t.desc.width == Some(4) && t.desc.height == Some(4)
    ensures |t.imageU32| == t.desc.width.value * t.desc.height.value
    ensures forall i | 0 <= i < |t.imageU32| :: t.imageU32[i] == 0
    ensures t.imageF32 == [] && t.updateImage && t.platform == platform
  {
    CxTexture(TextureDesc(ImageBGRA, Some(4), Some(4), None),
              seq(16, _ => 0), [], true, platform)
  }

  /** `Vec::resize(new_len, value)`: truncates to `newLen`, or extends with
      copies of `value` until the length is `newLen`. */
  method Resize<T>(v: seq<T>, newLen: nat, value: T) returns (r: seq<T>)
    ensures |r| == newLen
    ensures forall i | 0 <= i < newLen :: r[i] == if i < |v| then v[i] else value
  {
    if newLen <= |v| {
      r := v[..newLen];
      return;
    }
    r := v;
    while |r| < newLen
      invariant |v| <= |r| <= newLen
      invariant forall i | 0 <= i < |r| :: r[i] == if i < |v| then v[i] else value
      decreases newLen - |r|
    {
      r := r + [value];
    }
  }

  /** A pool's list of reusable slot indices, `Rc<RefCell<Vec<usize>>>`. */
  class FreeList {
    var ids: seq<nat>

    constructor ()
      ensures ids == []
    {
      ids := [];
    }
  }

  class Cx {
    var platformType: PlatformType

    var windows: seq<CxWindow>
    var windowsFree: FreeList
    var passes: seq<CxPass>
    var passesFree: FreeList
    var views: seq<CxView>
    var viewsFree: FreeList
    var textures: seq<CxTexture>
    var texturesFree: FreeList
    var geometries: seq<CxGeometry>
    var geometriesFree: FreeList
    var geometriesRefs: map<GeometryFingerprint, GeometryRef>

    var drawShaders: seq<CxDrawShader>
    var drawShaderPtrToId: map<DrawShaderPtr, nat>
    var drawShaderCompileSet: set<DrawShaderPtr>
    var drawShaderFingerprints: seq<DrawShaderFingerprint>

    var fonts: seq<Option<CxFont>>
    var pathToFontId: map<string, nat>
    var drawFontAtlas: Option<CxDrawFontAtlas>

    var inRedrawCycle: bool
    var windowStack: seq<nat>
    var passStack: seq<nat>
    var viewStack: seq<nat>
    var turtles: seq<Turtle>
    var alignList: seq<Area>

    var registries: CxRegistries<AnyValue>

    var newRedrawViews: seq<nat>
    var newRedrawViewsAndChildren: seq<nat>
    var newRedrawAllViews: bool
    var redrawViews: seq<nat>
    var redrawViewsAndChildren: seq<nat>
    var redrawAllViews: bool

    var redrawId: U64
    var repaintId: U64
    var eventId: U64
    var timerId: U64
    var nextFrameId: U64
    var signalId: nat

    var prevKeyFocus: Area
    var nextKeyFocus: Area
    var keyFocus: Area
    var keysDown: seq<KeyEvent>

    var downMouseCursor: Option<MouseCursor>
    var hoverMouseCursor: Option<MouseCursor>
    var fingers: seq<CxPerFinger>

    var dragArea: Area
    var newDragArea: Area

    var newNextFrames: set<NextFrame>
    var nextFrames: set<NextFrame>

    var signals: map<Signal, seq<U64>>
    var triggers: map<Area, seq<U64>>

    var commandSettings: map<CommandId, CxCommandSetting>

    /** `Cx::default()`. `numFingers` is `NUM_FINGERS`, `defaultFinger` is
        `CxPerFinger::default()` and `nullPlatformTexture` is
        `CxPlatformTexture::default()`, all defined outside cx.rs. */
    constructor Default(numFingers: nat, defaultFinger: CxPerFinger,
                        nullPlatformTexture: CxPlatformTexture)
      // platform and the one null texture
      ensures platformType == Unknown
      ensures textures == [NullTexture(nullPlatformTexture)]
      // every other pool, and every free list, starts empty
      ensures windows == [] && passes == [] && views == [] && geometries == []
      ensures drawShaders == [] && fonts == []
      ensures fresh(windowsFree) && windowsFree.ids == []
      ensures fresh(passesFree) && passesFree.ids == []
      ensures fresh(viewsFree) && viewsFree.ids == []
      ensures fresh(texturesFree) && texturesFree.ids == []
      ensures fresh(geometriesFree) && geometriesFree.ids == []
      ensures |{windowsFree, passesFree, viewsFree, texturesFree, geometriesFree}| == 5
      ensures geometriesRefs == map[]
      ensures drawShaderPtrToId == map[] && drawShaderCompileSet == {}
      ensures drawShaderFingerprints == []
      ensures pathToFontId == map[] && drawFontAtlas == None
      // nothing is being drawn, and everything is due for a redraw
      ensures !inRedrawCycle
      ensures windowStack == [] && passStack == [] && viewStack == []
      ensures turtles == [] && alignList == []
      ensures fresh(registries) && registries.Valid() && registries.table == map[]
      ensures newRedrawViews == [] && newRedrawViewsAndChildren == []
      ensures redrawViews == [] && redrawViewsAndChildren == []
      ensures newRedrawAllViews && redrawAllViews
      // every id counter starts at 1
      ensures redrawId == 1 && eventId == 1 && repaintId == 1
      ensures timerId == 1 && signalId == 1 && nextFrameId == 1
      // no focus, no keys, no cursor, no drag
      ensures prevKeyFocus == Empty && nextKeyFocus == Empty && keyFocus == Empty
      ensures keysDown == []
      ensures downMouseCursor == None && hoverMouseCursor == None
      ensures |fingers| == numFingers
      ensures forall i | 0 <= i < |fingers| :: fingers[i] == defaultFinger
      ensures dragArea == Empty && newDragArea == Empty
      ensures newNextFrames == {} && nextFrames == {}
      ensures signals == map[] && triggers == map[] && commandSettings == map[]
    {
      var fingerSlots := Resize([], numFingers, defaultFinger);

      platformType := Unknown;

      windows := [];
      windowsFree := new FreeList();
      passes := [];
      passesFree := new FreeList();
      views := [];
      viewsFree := new FreeList();
      textures := [NullTexture(nullPlatformTexture)];
      texturesFree := new FreeList();
      geometries := [];
      geometriesFree := new FreeList();
      geometriesRefs := map[];

      drawShaders := [];
      drawShaderPtrToId := map[];
      drawShaderCompileSet := {};
      drawShaderFingerprints := [];

      fonts := [];
      pathToFontId := map[];
      drawFontAtlas := None;

      inRedrawCycle := false;
      windowStack := [];
      passStack := [];
      viewStack := [];
      turtles := [];
      alignList := [];

      newRedrawViews := [];
      newRedrawViewsAndChildren := [];
      newRedrawAllViews := true;
      redrawViews := [];
      redrawViewsAndChildren := [];
      redrawAllViews := true;

      registries := new CxRegistries();

      redrawId := 1;
      eventId := 1;
      repaintId := 1;
      timerId := 1;
      signalId := 1;
      nextFrameId := 1;

      nextKeyFocus := Empty;
      prevKeyFocus := Empty;
      keyFocus := Empty;
      keysDown := [];

      downMouseCursor := None;
      hoverMouseCursor := None;
      fingers := fingerSlots;

      dragArea := Empty;
      newDragArea := Empty;

      newNextFrames := {};
      nextFrames := {};

      signals := map[];
      triggers := map[];

      commandSettings := map[];
    }
  }
}
