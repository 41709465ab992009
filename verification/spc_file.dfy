/**
 * The parts of a loaded SPC snapshot that the player reads: the CPU
 * registers and the optional ID666 metadata tag. Loading and parsing the
 * file is not part of this model.
 */
module SpcFile {
  import opened Wrappers
  import opened Numeric

  type U8 = x: int | 0 <= x < 0x100
  type U16 = x: int | 0 <= x < 0x1_0000

  /** The tool that dumped the snapshot: a closed set with an explicit Unknown. */
  datatype Emulator = Unknown | ZSnes | Snes9x

  datatype Id666Tag = Id666Tag(
    songTitle: string,
    gameTitle: string,
    dumperName: string,
    comments: string,
    dateDumped: string,
    secondsToPlayBeforeFadingOut: I32,
    fadeOutLength: I32,
    artistName: string,
    defaultChannelDisables: U8,
    dumpingEmulator: Emulator)

  datatype Spc = Spc(
    versionMinor: U8,
    pc: U16,
    a: U8,
    x: U8,
    y: U8,
    psw: U8,
    sp: U8,
    id666Tag: Option<Id666Tag>)

  /** The name the track info shows for the dumping emulator. */
  function EmulatorName(e: Emulator): (name: string)
    ensures name in {"Unknown", "ZSnes", "Snes9x"}
    ensures name == "Unknown" <==> e.Unknown?
    ensures name == "ZSnes" <==> e.ZSnes?
    ensures name == "Snes9x" <==> e.Snes9x?
  {
    match e
    case Unknown => "Unknown"
    case ZSnes => "ZSnes"
    case Snes9x => "Snes9x"
  }

  /** Different emulators are shown under different names. */
  lemma EmulatorNameInjective(e: Emulator, e': Emulator)
    requires EmulatorName(e) == EmulatorName(e')
    ensures e == e'
  {}
}
