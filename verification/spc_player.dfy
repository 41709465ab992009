/**
 * The player glue (spcplay.rs; the example player spc_player.rs repeats
 * the same code): the end-of-track timing derived from the ID666 tag, the
 * frame count `render` reports, and the track-info text.
 */
module SpcPlay {
  import opened Wrappers
  import opened SpcFile
  import opened Display
  import opened Numeric

  /** The DSP's output rate in samples per second (snes_apu's SAMPLE_RATE). */
  const SAMPLE_RATE: int := 32000

  /** Integer division as Rust's `/` on i32: the quotient is truncated toward zero. */
  function TruncDiv(a: int, b: int): (q: int)
    requires b > 0
    ensures a >= 0 ==> 0 <= b * q <= a < b * q + b
    ensures a < 0 ==> a <= b * q <= 0 && b * q - b < a
  {
    DivBounds(if a >= 0 then a else -a, b);
    if a >= 0 then a / b else -((-a) / b)
  }

  /** When a tagged track starts to fade and when it ends, in samples, and where playback is. */
  datatype EndState = EndState(samplePos: int, fadeOutSample: int, endSample: int)

  /** The tag's timing fits the i32 arithmetic of the source without overflow. */
  predicate TimingFitsI32(tag: Id666Tag) {
    var fadeOutSample := tag.secondsToPlayBeforeFadingOut * SAMPLE_RATE;
    var fadeLength := tag.fadeOutLength * SAMPLE_RATE;
    InI32(fadeOutSample) && InI32(fadeLength) && InI32(fadeOutSample + TruncDiv(fadeLength, 1000))
  }

  /**
   * The end state SpcPlayer::new derives: none without an ID666 tag;
   * otherwise playback starts at sample 0, fading starts after the tag's
   * seconds and ends fade_out_length milliseconds later.
   */
  function EndStateOf(tag: Option<Id666Tag>): (r: Option<EndState>)
    requires tag.Some? ==> TimingFitsI32(tag.value)
    ensures r.Some? <==> tag.Some?
    ensures r.Some? ==> r.value.samplePos == 0 && InI32(r.value.fadeOutSample) && InI32(r.value.endSample)
  {
    match tag
    case None => None
    case Some(t) =>
      var fadeOutSample := t.secondsToPlayBeforeFadingOut * SAMPLE_RATE;
      var endSample := fadeOutSample + TruncDiv(t.fadeOutLength * SAMPLE_RATE, 1000);
      Some(EndState(0, fadeOutSample, endSample))
  }

  /**
   * The fade window is exactly 32 samples per millisecond of fade_out_length
   * (the truncating division by 1000 never drops a remainder at 32000 Hz), and
   * fading starts after the tag's seconds at 32000 samples each.
   */
  lemma EndStateTiming(tag: Id666Tag)
    requires TimingFitsI32(tag)
    ensures var e := EndStateOf(Some(tag)).value;
            && e.fadeOutSample == 32000 * tag.secondsToPlayBeforeFadingOut
            && e.endSample - e.fadeOutSample == 32 * tag.fadeOutLength
            && (tag.fadeOutLength >= 0 ==> e.endSample >= e.fadeOutSample)
  {
    var f := tag.fadeOutLength;
    var q := TruncDiv(f * SAMPLE_RATE, 1000);
    if f >= 0 {
      ModUnique(f * SAMPLE_RATE, 1000, 32 * f, 0);
      assert (f * SAMPLE_RATE) / 1000 == 32 * f;
    } else {
      ModUnique(-f * SAMPLE_RATE, 1000, -32 * f, 0);
      assert (-f * SAMPLE_RATE) / 1000 == -32 * f;
    }
  }

  /** The worked timing: 2 s before fading and a 1000 ms fade give 64000 and 96000. */
  lemma TwoSecondsOneSecondFade(tag: Id666Tag)
    requires tag.secondsToPlayBeforeFadingOut == 2 && tag.fadeOutLength == 1000
    ensures TimingFitsI32(tag)
    ensures EndStateOf(Some(tag)) == Some(EndState(0, 64000, 96000))
  {
    EndStateTiming(tag);
  }

  // ---------------------------------------------------------------------
  // Track-info text

  /**
   * The lines get_spc_info writes: the path and the seven register lines,
   * then either the ID666 header and its ten fields or one line saying
   * there is no tag.
   */
  function InfoLines(path: string, spc: Spc): (lines: seq<string>)
    ensures |lines| == if spc.id666Tag.Some? then 19 else 9
    ensures lines[0] == "SPC: " + path
    ensures lines[8] == if spc.id666Tag.Some? then " ID666 tag present:" else " No ID666 tag present."
    ensures spc.id666Tag.Some? ==>
      lines[18] == "  Dumping emulator: " + EmulatorName(spc.id666Tag.value.dumpingEmulator)
  {
    RegisterLines(path, spc) + TagLines(spc.id666Tag)
  }

  /** The path line and the seven register lines. */
  function RegisterLines(path: string, spc: Spc): seq<string>
  {
    [ "SPC: " + path,
      " Version Minor: " + NatToString(spc.versionMinor),
      " PC: " + NatToString(spc.pc),
      " A: " + NatToString(spc.a),
      " X: " + NatToString(spc.x),
      " Y: " + NatToString(spc.y),
      " PSW: " + NatToString(spc.psw),
      " SP: " + NatToString(spc.sp) ]
  }

  /** The ID666 header and its ten field lines, or the line saying there is no tag. */
  function TagLines(tag: Option<Id666Tag>): seq<string>
  {
    match tag
    case Some(t) =>
      [ " ID666 tag present:",
        "  Song title: " + t.songTitle,
        "  Game title: " + t.gameTitle,
        "  Dumper name: " + t.dumperName,
        "  Comments: " + t.comments,
        "  Date dumped (MM/DD/YYYY): " + t.dateDumped,
        "  Seconds to play before fading out: " + IntToString(t.secondsToPlayBeforeFadingOut),
        "  Fade out length: " + IntToString(t.fadeOutLength) + "ms",
        "  Artist name: " + t.artistName,
        "  Default channel disables: " + NatToString(t.defaultChannelDisables),
        "  Dumping emulator: " + EmulatorName(t.dumpingEmulator) ]
    case None =>
      [ " No ID666 tag present." ]
  }

  /** Lines written one after another, each ended by a newline. */
  function Text(lines: seq<string>): string
  {
    FirstLines(lines, |lines|)
  }

  /** The first k of the lines, each ended by a newline. */
  function FirstLines(lines: seq<string>, k: nat): string
    requires k <= |lines|
  {
    if k == 0 then "" else FirstLines(lines, k - 1) + lines[k - 1] + "\n"
  }

  /** The text of lines followed by more lines is the two texts, one after the other. */
  lemma {:induction false} TextAppend(lines: seq<string>, more: seq<string>)
    ensures Text(lines + more) == Text(lines) + Text(more)
    decreases |more|
  {
    if more == [] {
      assert lines + more == lines;
    } else {
      var all, init := lines + more, more[..|more| - 1];
      assert all[..|all| - 1] == lines + init;
      assert all[|all| - 1] == more[|more| - 1];
      assert (lines + init)[..|init| + |lines|] == lines + init;
      assert more[..|init|] == init[..|init|];
      TextAppend(lines, init);
      FirstLinesOfPrefix(all, lines + init, |all| - 1);
      FirstLinesOfPrefix(more, init, |init|);
      assert Text(all) == Text(lines + init) + more[|more| - 1] + "\n";
      assert Text(more) == Text(init) + more[|more| - 1] + "\n";
    }
  }

  /** The text of the first k lines is the text of the prefix of length k. */
  lemma FirstLinesOfPrefix(lines: seq<string>, lines': seq<string>, k: nat)
    requires k <= |lines| && k <= |lines'| && lines[..k] == lines'[..k]
    ensures FirstLines(lines, k) == FirstLines(lines', k)
  {
    if k > 0 {
      assert lines[k - 1] == lines[..k][k - 1];
      assert lines[..k - 1] == lines[..k][..k - 1];
      assert lines'[..k - 1] == lines'[..k][..k - 1];
      FirstLinesOfPrefix(lines, lines', k - 1);
    }
  }

  /**
   * writeln!: append one line and its newline to the buffer. The ghost
   * parameters say which line of the intended text this is: line k of
   * `lines`, written after the text `prefix`.
   */
  method Writeln(buf: string, line: string, ghost prefix: string, ghost lines: seq<string>, ghost k: nat)
    returns (buf': string)
    requires k < |lines| && lines[k] == line && buf == prefix + FirstLines(lines, k)
    ensures buf' == buf + line + "\n"
    ensures buf' == prefix + FirstLines(lines, k + 1)
  {
    buf' := buf + line + "\n";
    assert buf' == prefix + (FirstLines(lines, k) + line + "\n");
  }

  /** The free function get_spc_info: the text holds the info lines, in order, one per line. */
  method WriteSpcInfo(path: string, spc: Spc) returns (buf: string)
    ensures buf == Text(InfoLines(path, spc))
  {
    buf := WriteRegisterLines(path, spc);
    buf := WriteTagLines(buf, spc.id666Tag, RegisterLines(path, spc));
  }

  /** A new buffer and the first eight writeln! calls of get_spc_info. */
  method WriteRegisterLines(path: string, spc: Spc) returns (buf': string)
    ensures buf' == Text(RegisterLines(path, spc))
  {
    ghost var lines := RegisterLines(path, spc);
    buf' := "";
    buf' := Writeln(buf', "SPC: " + path, "", lines, 0);
    buf' := Writeln(buf', " Version Minor: " + NatToString(spc.versionMinor), "", lines, 1);
    buf' := Writeln(buf', " PC: " + NatToString(spc.pc), "", lines, 2);
    buf' := Writeln(buf', " A: " + NatToString(spc.a), "", lines, 3);
    buf' := Writeln(buf', " X: " + NatToString(spc.x), "", lines, 4);
    buf' := Writeln(buf', " Y: " + NatToString(spc.y), "", lines, 5);
    buf' := Writeln(buf', " PSW: " + NatToString(spc.psw), "", lines, 6);
    buf' := Writeln(buf', " SP: " + NatToString(spc.sp), "", lines, 7);
  }

  /** The writeln! calls of get_spc_info that follow the register lines. */
  method WriteTagLines(buf: string, tag: Option<Id666Tag>, ghost before: seq<string>) returns (buf': string)
    requires buf == Text(before)
    ensures buf' == Text(before + TagLines(tag))
  {
    ghost var lines := TagLines(tag);
    buf' := buf;
    if tag.Some? {
      var t := tag.value;
      buf' := Writeln(buf', " ID666 tag present:", buf, lines, 0);
      buf' := Writeln(buf', "  Song title: " + t.songTitle, buf, lines, 1);
      buf' := Writeln(buf', "  Game title: " + t.gameTitle, buf, lines, 2);
      buf' := Writeln(buf', "  Dumper name: " + t.dumperName, buf, lines, 3);
      buf' := Writeln(buf', "  Comments: " + t.comments, buf, lines, 4);
      buf' := Writeln(buf', "  Date dumped (MM/DD/YYYY): " + t.dateDumped, buf, lines, 5);
      buf' := Writeln(buf', "  Seconds to play before fading out: " + IntToString(t.secondsToPlayBeforeFadingOut), buf, lines, 6);
      buf' := Writeln(buf', "  Fade out length: " + IntToString(t.fadeOutLength) + "ms", buf, lines, 7);
      buf' := Writeln(buf', "  Artist name: " + t.artistName, buf, lines, 8);
      buf' := Writeln(buf', "  Default channel disables: " + NatToString(t.defaultChannelDisables), buf, lines, 9);
      buf' := Writeln(buf', "  Dumping emulator: " + EmulatorName(t.dumpingEmulator), buf, lines, 10);
    } else {
      buf' := Writeln(buf', " No ID666 tag present.", buf, lines, 0);
    }
    TextAppend(before, lines);
  }

  // ---------------------------------------------------------------------
  // The player

  class SpcPlayer {
    const path: string
    const spc: Spc
    var endState: Option<EndState>

    /**
     * SpcPlayer::new, from an already loaded snapshot: keeps the path and
     * the snapshot and derives the end state from the ID666 tag.
     */
    constructor (path: string, spc: Spc)
      requires spc.id666Tag.Some? ==> TimingFitsI32(spc.id666Tag.value)
      ensures this.path == path && this.spc == spc
      ensures endState == EndStateOf(spc.id666Tag)
    {
      this.path := path;
      this.spc := spc;
      endState := EndStateOf(spc.id666Tag);
    }

    /** The player's get_spc_info: the info text of its own path and snapshot. */
    method GetSpcInfo() returns (text: string)
      ensures text == Text(InfoLines(path, spc))
    {
      text := WriteSpcInfo(path, spc);
    }

    /**
     * render: `out` receives what the APU renders (given here as
     * `rendered`); the result is the number of whole stereo frames in `out`,
     * and the end state is left as it was.
     */
    method Render(out: array<I16>, rendered: seq<I16>) returns (frames: nat)
      requires |rendered| == out.Length
      modifies out
      ensures out[..] == rendered
      ensures 2 * frames <= out.Length < 2 * frames + 2
      ensures endState == old(endState)
    {
      forall i | 0 <= i < out.Length {
        out[i] := rendered[i];
      }
      frames := out.Length / 2;
    }
  }
}
