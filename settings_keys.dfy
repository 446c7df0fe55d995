/**
 * The keys of the scene-settings file: the names the loader dispatches on,
 * the sections the saver writes them in, and the type of value each holds.
 */
module SettingsKeys {
  import opened Wrappers

  /** A 32-bit signed integer, the range accepted by `stoi`. */
  type Int32 = i: int | -0x8000_0000 <= i < 0x8000_0000

  /** Every key the loader recognises; one per field of the settings record. */
  datatype Key =
    | TextureTiling | GrassMaxHeight | RockMaxHeight | SlopeThreshold | UseTerrainTextures
    | WaterHeight | WaveSpeed | WaveStrength | WaterTiling | ShineDamper | Reflectivity
    | WaterColorR | WaterColorG | WaterColorB | EnableWater
    | TimeOfDay | DaySpeed | AutoAdvance
    | EnableFog | FogDensity
    | EnableSsao | SsaoRadius | SsaoBias | SsaoIntensity | SsaoKernelSize
    | CameraPosX | CameraPosY | CameraPosZ | CameraYaw | CameraPitch | MoveSpeed
    | MouseSensitivity | GroundWalkMode | PlayerHeight
    | WireframeMode | ShowCube

  /** The value of one setting, tagged by how the file encodes it. */
  datatype Value = Text(text: string) | Flag(on: bool) | Count(n: Int32)

  datatype Kind = FloatKind | BoolKind | IntKind

  function KindOf(k: Key): Kind {
    match k
    case UseTerrainTextures | EnableWater | AutoAdvance | EnableFog | EnableSsao
      | GroundWalkMode | WireframeMode | ShowCube => BoolKind
    case SsaoKernelSize => IntKind
    case _ => FloatKind
  }

  /** A value of the given kind. */
  predicate HasKind(v: Value, kind: Kind) {
    match kind
    case FloatKind => v.Text?
    case BoolKind => v.Flag?
    case IntKind => v.Count?
  }

  /** A value the field for `k` can hold. */
  predicate Fits(k: Key, v: Value) {
    HasKind(v, KindOf(k))
  }

  /** The name under which a key is written and recognised. */
  function KeyName(k: Key): string {
    match k
    case TextureTiling => "textureTiling"
    case GrassMaxHeight => "grassMaxHeight"
    case RockMaxHeight => "rockMaxHeight"
    case SlopeThreshold => "slopeThreshold"
    case UseTerrainTextures => "useTerrainTextures"
    case WaterHeight => "waterHeight"
    case WaveSpeed => "waveSpeed"
    case WaveStrength => "waveStrength"
    case WaterTiling => "waterTiling"
    case ShineDamper => "shineDamper"
    case Reflectivity => "reflectivity"
    case WaterColorR => "waterColorR"
    case WaterColorG => "waterColorG"
    case WaterColorB => "waterColorB"
    case EnableWater => "enableWater"
    case TimeOfDay => "timeOfDay"
    case DaySpeed => "daySpeed"
    case AutoAdvance => "autoAdvance"
    case EnableFog => "enableFog"
    case FogDensity => "fogDensity"
    case EnableSsao => "enableSSAO"
    case SsaoRadius => "ssaoRadius"
    case SsaoBias => "ssaoBias"
    case SsaoIntensity => "ssaoIntensity"
    case SsaoKernelSize => "ssaoKernelSize"
    case CameraPosX => "cameraPosX"
    case CameraPosY => "cameraPosY"
    case CameraPosZ => "cameraPosZ"
    case CameraYaw => "cameraYaw"
    case CameraPitch => "cameraPitch"
    case MoveSpeed => "moveSpeed"
    case MouseSensitivity => "mouseSensitivity"
    case GroundWalkMode => "groundWalkMode"
    case PlayerHeight => "playerHeight"
    case WireframeMode => "wireframeMode"
    case ShowCube => "showCube"
  }

  /** The loader's dispatch: the key a name selects, if any. */
  function KeyOf(name: string): Option<Key> {
    match name
    case "textureTiling" => Some(TextureTiling)
    case "grassMaxHeight" => Some(GrassMaxHeight)
    case "rockMaxHeight" => Some(RockMaxHeight)
    case "slopeThreshold" => Some(SlopeThreshold)
    case "useTerrainTextures" => Some(UseTerrainTextures)
    case "waterHeight" => Some(WaterHeight)
    case "waveSpeed" => Some(WaveSpeed)
    case "waveStrength" => Some(WaveStrength)
    case "waterTiling" => Some(WaterTiling)
    case "shineDamper" => Some(ShineDamper)
    case "reflectivity" => Some(Reflectivity)
    case "waterColorR" => Some(WaterColorR)
    case "waterColorG" => Some(WaterColorG)
    case "waterColorB" => Some(WaterColorB)
    case "enableWater" => Some(EnableWater)
    case "timeOfDay" => Some(TimeOfDay)
    case "daySpeed" => Some(DaySpeed)
    case "autoAdvance" => Some(AutoAdvance)
    case "enableFog" => Some(EnableFog)
    case "fogDensity" => Some(FogDensity)
    case "enableSSAO" => Some(EnableSsao)
    case "ssaoRadius" => Some(SsaoRadius)
    case "ssaoBias" => Some(SsaoBias)
    case "ssaoIntensity" => Some(SsaoIntensity)
    case "ssaoKernelSize" => Some(SsaoKernelSize)
    case "cameraPosX" => Some(CameraPosX)
    case "cameraPosY" => Some(CameraPosY)
    case "cameraPosZ" => Some(CameraPosZ)
    case "cameraYaw" => Some(CameraYaw)
    case "cameraPitch" => Some(CameraPitch)
    case "moveSpeed" => Some(MoveSpeed)
    case "mouseSensitivity" => Some(MouseSensitivity)
    case "groundWalkMode" => Some(GroundWalkMode)
    case "playerHeight" => Some(PlayerHeight)
    case "wireframeMode" => Some(WireframeMode)
    case "showCube" => Some(ShowCube)
    case _ => None
  }

  /** A name the line grammar passes through intact: non-empty, not a header, no `=` and no newline. */
  predicate PlainName(name: string) {
    |name| > 0 && name[0] != '[' && '=' !in name && '\n' !in name
  }

  /** The keys of each file section, in the order the saver writes them. */
  const TerrainKeys: seq<Key> := [TextureTiling, GrassMaxHeight, RockMaxHeight, SlopeThreshold, UseTerrainTextures]
  const WaterKeys: seq<Key> :=
    [WaterHeight, WaveSpeed, WaveStrength, WaterTiling, ShineDamper, Reflectivity,
     WaterColorR, WaterColorG, WaterColorB, EnableWater]
  const LightingKeys: seq<Key> := [TimeOfDay, DaySpeed, AutoAdvance]
  const FogKeys: seq<Key> := [EnableFog, FogDensity]
  const SsaoKeys: seq<Key> := [EnableSsao, SsaoRadius, SsaoBias, SsaoIntensity, SsaoKernelSize]
  const CameraKeys: seq<Key> :=
    [CameraPosX, CameraPosY, CameraPosZ, CameraYaw, CameraPitch, MoveSpeed,
     MouseSensitivity, GroundWalkMode, PlayerHeight]
  const DisplayKeys: seq<Key> := [WireframeMode, ShowCube]

  datatype Section = Section(name: string, keys: seq<Key>)

  /** The sections of the file, in the order the saver writes them. */
  const Sections: seq<Section> := [
    Section("Terrain", TerrainKeys), Section("Water", WaterKeys),
    Section("Lighting", LightingKeys), Section("Fog", FogKeys), Section("SSAO", SsaoKeys),
    Section("Camera", CameraKeys), Section("Display", DisplayKeys)]

  lemma SectionNamesSingleLine()
    ensures forall i :: 0 <= i < |Sections| ==> '\n' !in Sections[i].name
  {
  }

  function KeysOf(secs: seq<Section>): seq<Key> {
    if secs == [] then [] else secs[0].keys + KeysOf(secs[1..])
  }

  /** The section listing `k`. */
  function SectionOf(k: Key): (i: nat)
    ensures i < |Sections| && k in Sections[i].keys
  {
    match k
    case TextureTiling | GrassMaxHeight | RockMaxHeight | SlopeThreshold | UseTerrainTextures => 0
    case WaterHeight | WaveSpeed | WaveStrength | WaterTiling | ShineDamper | Reflectivity
      | WaterColorR | WaterColorG | WaterColorB | EnableWater => 1
    case TimeOfDay | DaySpeed | AutoAdvance => 2
    case EnableFog | FogDensity => 3
    case EnableSsao | SsaoRadius | SsaoBias | SsaoIntensity | SsaoKernelSize => 4
    case CameraPosX | CameraPosY | CameraPosZ | CameraYaw | CameraPitch | MoveSpeed
      | MouseSensitivity | GroundWalkMode | PlayerHeight => 5
    case WireframeMode | ShowCube => 6
  }

  lemma {:induction false} KeysOfContains(secs: seq<Section>, i: nat, k: Key)
    requires i < |secs| && k in secs[i].keys
    ensures k in KeysOf(secs)
  {
    if i > 0 {
      KeysOfContains(secs[1..], i - 1, k);
    }
  }

  /** Every key belongs to a section, so the saver writes every field. */
  lemma EveryKeySaved(k: Key)
    ensures k in KeysOf(Sections)
  {
    KeysOfContains(Sections, SectionOf(k), k);
  }

  // The facts below are split into small groups only to keep each proof small.

  lemma DispatchGroup1()
    ensures KeyOf("textureTiling") == Some(TextureTiling)
    ensures KeyOf("grassMaxHeight") == Some(GrassMaxHeight)
    ensures KeyOf("rockMaxHeight") == Some(RockMaxHeight)
    ensures KeyOf("slopeThreshold") == Some(SlopeThreshold)
    ensures KeyOf("useTerrainTextures") == Some(UseTerrainTextures)
    ensures KeyOf("waterHeight") == Some(WaterHeight)
  {
  }

  lemma DispatchGroup2()
    ensures KeyOf("waveSpeed") == Some(WaveSpeed)
    ensures KeyOf("waveStrength") == Some(WaveStrength)
    ensures KeyOf("waterTiling") == Some(WaterTiling)
    ensures KeyOf("shineDamper") == Some(ShineDamper)
    ensures KeyOf("reflectivity") == Some(Reflectivity)
    ensures KeyOf("waterColorR") == Some(WaterColorR)
  {
  }

  lemma DispatchGroup3()
    ensures KeyOf("waterColorG") == Some(WaterColorG)
    ensures KeyOf("waterColorB") == Some(WaterColorB)
    ensures KeyOf("enableWater") == Some(EnableWater)
    ensures KeyOf("timeOfDay") == Some(TimeOfDay)
    ensures KeyOf("daySpeed") == Some(DaySpeed)
    ensures KeyOf("autoAdvance") == Some(AutoAdvance)
  {
  }

  lemma DispatchGroup4()
    ensures KeyOf("enableFog") == Some(EnableFog)
    ensures KeyOf("fogDensity") == Some(FogDensity)
    ensures KeyOf("enableSSAO") == Some(EnableSsao)
    ensures KeyOf("ssaoRadius") == Some(SsaoRadius)
    ensures KeyOf("ssaoBias") == Some(SsaoBias)
    ensures KeyOf("ssaoIntensity") == Some(SsaoIntensity)
  {
  }

  lemma DispatchGroup5()
    ensures KeyOf("ssaoKernelSize") == Some(SsaoKernelSize)
    ensures KeyOf("cameraPosX") == Some(CameraPosX)
    ensures KeyOf("cameraPosY") == Some(CameraPosY)
    ensures KeyOf("cameraPosZ") == Some(CameraPosZ)
    ensures KeyOf("cameraYaw") == Some(CameraYaw)
    ensures KeyOf("cameraPitch") == Some(CameraPitch)
  {
  }

  lemma DispatchGroup6()
    ensures KeyOf("moveSpeed") == Some(MoveSpeed)
    ensures KeyOf("mouseSensitivity") == Some(MouseSensitivity)
    ensures KeyOf("groundWalkMode") == Some(GroundWalkMode)
    ensures KeyOf("playerHeight") == Some(PlayerHeight)
    ensures KeyOf("wireframeMode") == Some(WireframeMode)
    ensures KeyOf("showCube") == Some(ShowCube)
  {
  }

  lemma PlainGroup1()
    ensures PlainName(KeyName(TextureTiling))
    ensures PlainName(KeyName(GrassMaxHeight))
    ensures PlainName(KeyName(RockMaxHeight))
    ensures PlainName(KeyName(SlopeThreshold))
    ensures PlainName(KeyName(UseTerrainTextures))
    ensures PlainName(KeyName(WaterHeight))
  {
  }

  lemma PlainGroup2()
    ensures PlainName(KeyName(WaveSpeed))
    ensures PlainName(KeyName(WaveStrength))
    ensures PlainName(KeyName(WaterTiling))
    ensures PlainName(KeyName(ShineDamper))
    ensures PlainName(KeyName(Reflectivity))
    ensures PlainName(KeyName(WaterColorR))
  {
  }

  lemma PlainGroup3()
    ensures PlainName(KeyName(WaterColorG))
    ensures PlainName(KeyName(WaterColorB))
    ensures PlainName(KeyName(EnableWater))
    ensures PlainName(KeyName(TimeOfDay))
    ensures PlainName(KeyName(DaySpeed))
    ensures PlainName(KeyName(AutoAdvance))
  {
  }

  lemma PlainGroup4()
    ensures PlainName(KeyName(EnableFog))
    ensures PlainName(KeyName(FogDensity))
    ensures PlainName(KeyName(EnableSsao))
    ensures PlainName(KeyName(SsaoRadius))
    ensures PlainName(KeyName(SsaoBias))
    ensures PlainName(KeyName(SsaoIntensity))
  {
  }

  lemma PlainGroup5()
    ensures PlainName(KeyName(SsaoKernelSize))
    ensures PlainName(KeyName(CameraPosX))
    ensures PlainName(KeyName(CameraPosY))
    ensures PlainName(KeyName(CameraPosZ))
    ensures PlainName(KeyName(CameraYaw))
    ensures PlainName(KeyName(CameraPitch))
  {
  }

  lemma PlainGroup6()
    ensures PlainName(KeyName(MoveSpeed))
    ensures PlainName(KeyName(MouseSensitivity))
    ensures PlainName(KeyName(GroundWalkMode))
    ensures PlainName(KeyName(PlayerHeight))
    ensures PlainName(KeyName(WireframeMode))
    ensures PlainName(KeyName(ShowCube))
  {
  }

  lemma KeyNameIsPlain(k: Key)
    ensures PlainName(KeyName(k))
  {
    match k {
      case TextureTiling | GrassMaxHeight | RockMaxHeight |
        SlopeThreshold | UseTerrainTextures | WaterHeight =>
        PlainGroup1();
      case WaveSpeed | WaveStrength | WaterTiling | ShineDamper | Reflectivity | WaterColorR =>
        PlainGroup2();
      case WaterColorG | WaterColorB | EnableWater | TimeOfDay | DaySpeed | AutoAdvance =>
        PlainGroup3();
      case EnableFog | FogDensity | EnableSsao | SsaoRadius | SsaoBias | SsaoIntensity =>
        PlainGroup4();
      case SsaoKernelSize | CameraPosX | CameraPosY | CameraPosZ | CameraYaw | CameraPitch =>
        PlainGroup5();
      case MoveSpeed | MouseSensitivity | GroundWalkMode |
        PlayerHeight | WireframeMode | ShowCube =>
        PlainGroup6();
    }
  }


  /** Each key's name selects that key, and passes through the line grammar intact. */
  lemma KeyOfInvertsKeyName(k: Key)
    ensures KeyOf(KeyName(k)) == Some(k) && PlainName(KeyName(k))
  {
    KeyNameIsPlain(k);
    match k {
      case TextureTiling | GrassMaxHeight | RockMaxHeight | SlopeThreshold | UseTerrainTextures |
        WaterHeight =>
        DispatchGroup1();
      case WaveSpeed | WaveStrength | WaterTiling | ShineDamper | Reflectivity | WaterColorR =>
        DispatchGroup2();
      case WaterColorG | WaterColorB | EnableWater | TimeOfDay | DaySpeed | AutoAdvance =>
        DispatchGroup3();
      case EnableFog | FogDensity | EnableSsao | SsaoRadius | SsaoBias | SsaoIntensity =>
        DispatchGroup4();
      case SsaoKernelSize | CameraPosX | CameraPosY | CameraPosZ | CameraYaw | CameraPitch =>
        DispatchGroup5();
      case MoveSpeed | MouseSensitivity | GroundWalkMode |
        PlayerHeight | WireframeMode | ShowCube =>
        DispatchGroup6();
    }
  }

  /** A name that selects a key is that key's name, so no two keys share a name. */
  lemma KeyOfOnlyKeyNames(name: string)
    ensures KeyOf(name).Some? ==> name == KeyName(KeyOf(name).value)
  {
  }
}
