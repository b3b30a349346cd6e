/**
 * Node construction options (`VideoNodeOptions`), the fixed option bags each
 * node class passes to the base constructor, and how the base constructor
 * resolves them into a configuration.
 */
module NodeOptions {
  import opened Js

  datatype VideoNodeOptions = VideoNodeOptions(
    name: string,
    vertexShaderSource: Option<string>,
    fragmentShaderSource: Option<string>,
    useDefaultProgram: Option<bool>,
    createTexture: Option<bool>,
    create2d: Option<bool>,
    useFbo: Option<bool>,
    width: Option<nat>,
    height: Option<nat>,
    matchInputSize: Option<bool>)

  /** An option bag that sets only a name. */
  function Named(name: string): VideoNodeOptions {
    VideoNodeOptions(name, None, None, None, None, None, None, None, None, None)
  }

  const MixOptions: VideoNodeOptions :=
    Named("mix").(useDefaultProgram := Some(true), useFbo := Some(true), create2d := Some(true))

  const MirrorOptions: VideoNodeOptions :=
    Named("mirror").(useDefaultProgram := Some(true), useFbo := Some(true), create2d := Some(true))

  const ImageSourceOptions: VideoNodeOptions := Named("imageSource")

  /**
   * `Object.assign({ useDefaultProgram: true, createTexture: false, name: 'destination' }, options)`:
   * every property the caller gives wins, the three defaults fill the rest.
   */
  function DestinationOptions(user: Option<VideoNodeOptions>): (o: VideoNodeOptions)
    ensures user.None? ==> o == Named("destination").(useDefaultProgram := Some(true), createTexture := Some(false))
    ensures user.Some? ==> o.name == user.value.name
    ensures user.Some? ==> o.useDefaultProgram == (if user.value.useDefaultProgram.Some? then user.value.useDefaultProgram else Some(true))
    ensures user.Some? ==> o.createTexture == (if user.value.createTexture.Some? then user.value.createTexture else Some(false))
    ensures user.Some? ==> o.(useDefaultProgram := None, createTexture := None) == user.value.(useDefaultProgram := None, createTexture := None)
  {
    match user
    case None => Named("destination").(useDefaultProgram := Some(true), createTexture := Some(false))
    case Some(u) =>
      u.(useDefaultProgram := if u.useDefaultProgram.Some? then u.useDefaultProgram else Some(true),
         createTexture := if u.createTexture.Some? then u.createTexture else Some(false))
  }

  /** What the base constructor makes of an option bag. */
  datatype Config = Config(
    name: string,
    matchInputSize: bool,
    width: nat,
    height: nat,
    texture: bool,
    fbo: bool,
    defaultProgram: bool,
    ownProgram: bool,
    create2d: bool)

  /**
   * Size matching is on unless explicitly false; width and height fall back to
   * the context's when absent or 0; a texture is created unless
   * `createTexture` is explicitly false; a framebuffer, the shared program and
   * a raster surface only when asked for; an own program only when both
   * shader sources are given.
   */
  function Resolve(o: VideoNodeOptions, contextWidth: nat, contextHeight: nat): (c: Config)
    ensures c.matchInputSize <==> o.matchInputSize != Some(false)
    ensures c.width == (if o.width.Some? && o.width.value != 0 then o.width.value else contextWidth)
    ensures c.height == (if o.height.Some? && o.height.value != 0 then o.height.value else contextHeight)
    ensures c.texture <==> o.createTexture != Some(false)
    ensures c.fbo <==> o.useFbo == Some(true)
    ensures c.defaultProgram <==> o.useDefaultProgram == Some(true)
    ensures c.create2d <==> o.create2d == Some(true)
    ensures c.ownProgram <==> TruthyString(o.vertexShaderSource) && TruthyString(o.fragmentShaderSource)
  {
    Config(o.name, NotFalse(o.matchInputSize),
           OrNumber(if o.width.Some? then Some(o.width.value as int) else None, contextWidth),
           OrNumber(if o.height.Some? then Some(o.height.value as int) else None, contextHeight),
           NotFalse(o.createTexture), Truthy(o.useFbo), Truthy(o.useDefaultProgram),
           TruthyString(o.vertexShaderSource) && TruthyString(o.fragmentShaderSource),
           Truthy(o.create2d))
  }

  /** Without caller options a destination uses the shared program, creates no texture and is named 'destination'. */
  lemma DestinationDefaults(contextWidth: nat, contextHeight: nat)
    ensures var c := Resolve(DestinationOptions(None), contextWidth, contextHeight);
      c.defaultProgram && !c.texture && !c.fbo && c.name == "destination" && c.matchInputSize
      && c.width == contextWidth && c.height == contextHeight
  {
  }

  /** The mix and mirror nodes render offscreen with the shared program and get a raster surface. */
  lemma OffscreenNodeConfigs(contextWidth: nat, contextHeight: nat)
    ensures var m := Resolve(MixOptions, contextWidth, contextHeight);
      m.defaultProgram && m.fbo && m.texture && m.create2d && !m.ownProgram && m.name == "mix"
    ensures var m := Resolve(MirrorOptions, contextWidth, contextHeight);
      m.defaultProgram && m.fbo && m.texture && m.create2d && !m.ownProgram && m.name == "mirror"
  {
  }
}
