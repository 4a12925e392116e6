/** The Windows host's picture cache (flutter_client/windows/runner/screen_capture.cpp): one retained
    picture, compared while it is copied, and one encoding of it, reused while nothing changed. */
module ScreenCapture {
  import opened Wrappers

  const BYTES_PER_PIXEL: nat := 4
  const DUPLICATION_RETRY_MS: int := 30_000

  type Pixels = seq<bv8>

  datatype Size = Size(width: int, height: int)

  datatype Picture = Picture(pixels: Pixels, width: nat, height: nat)

  datatype Frame = Frame(jpeg: Pixels, width: int, height: int, sequence: int)

  datatype Display = Display(monitor: int, width: nat, height: nat)

  datatype Desktop = Default | LockedDesktop | SecureDesktop

  datatype Status = Done | SessionLocked | OnSecureDesktop | Broken

  datatype Dxgi = NewFrame | Unchanged | Lost | Unsupported

  /** The first n bytes of each mapped line; lines may be longer than a row of the picture. */
  function Rows(lines: seq<Pixels>, row: nat): (p: Pixels)
    requires forall y :: 0 <= y < |lines| ==> |lines[y]| >= row
    ensures |p| == row * |lines|
  {
    if lines == [] then []
    else
      var n := |lines| - 1;
      assert row * |lines| == row * n + row;
      Rows(lines[..n], row) + lines[n][..row]
  }

  lemma RowsStep(lines: seq<Pixels>, row: nat, y: nat)
    requires forall k :: 0 <= k < |lines| ==> |lines[k]| >= row
    requires y < |lines|
    ensures Rows(lines[..y + 1], row) == Rows(lines[..y], row) + lines[y][..row]
    ensures row * (y + 1) == row * y + row <= row * |lines|
  {
    assert lines[..y + 1][..y] == lines[..y];
    var rest := |lines| - (y + 1);
    assert row * |lines| == row * (y + 1) + row * rest;
  }

  method RowDiffers(pixels: array<bv8>, at: nat, line: Pixels, row: nat) returns (differs: bool)
    requires at + row <= pixels.Length && row <= |line|
    ensures differs <==> pixels[at..at + row] != line[..row]
  {
    for x := 0 to row
      invariant pixels[at..at + x] == line[..x]
    {
      if pixels[at + x] != line[x] {
        assert pixels[at..at + row][x] != line[..row][x];
        return true;
      }
    }
    return false;
  }

  method CopyRow(pixels: array<bv8>, at: nat, line: Pixels, row: nat)
    requires at + row <= pixels.Length && row <= |line|
    modifies pixels
    ensures pixels[..at] == old(pixels[..at]) && pixels[at..at + row] == line[..row]
    ensures pixels[at + row..] == old(pixels[at + row..])
  {
    for x := 0 to row
      invariant pixels[..at] == old(pixels[..at]) && pixels[at..at + x] == line[..x]
      invariant pixels[at + x..] == old(pixels[at + x..])
    {
      pixels[at + x] := line[x];
    }
  }

  /** One line of the loop: compared only while nothing has differed, copied once something has. */
  method TakeRow(pixels: array<bv8>, at: nat, line: Pixels, row: nat, differs: bool) returns (now: bool)
    requires at + row <= pixels.Length && row <= |line|
    modifies pixels
    ensures pixels[..at] == old(pixels[..at]) && pixels[at..at + row] == line[..row]
    ensures pixels[at + row..] == old(pixels[at + row..])
    ensures now <==> differs || old(pixels[at..at + row]) != line[..row]
  {
    now := differs;
    if !now {
      now := RowDiffers(pixels, at, line, row);
    }
    if now {
      CopyRow(pixels, at, line, row);
    }
  }

  /** The row loop: it stops comparing at the first difference, and the buffer ends up equal to the
      mapped frame either way. */
  method CompareAndCopy(pixels: array<bv8>, lines: seq<Pixels>, row: nat, known: bool) returns (differs: bool)
    requires forall y :: 0 <= y < |lines| ==> |lines[y]| >= row
    requires pixels.Length == row * |lines|
    modifies pixels
    ensures pixels[..] == Rows(lines, row)
    ensures differs <==> known || old(pixels[..]) != Rows(lines, row)
  {
    differs := known;
    var at := 0;
    ghost var was := pixels[..];
    for y := 0 to |lines|
      invariant at == row * y <= pixels.Length
      invariant pixels[..at] == Rows(lines[..y], row)
      invariant pixels[at..] == was[at..]
      invariant differs <==> known || was[..at] != Rows(lines[..y], row)
    {
      RowsStep(lines, row, y);
      Later(pixels[..], was, at, row);
      differs := TakeRow(pixels, at, lines[y], row, differs);
      Extended(was, pixels[..], at, row, Rows(lines[..y], row), lines[y][..row]);
      at := at + row;
    }
    assert lines[..|lines|] == lines;
  }

  lemma Later(now: Pixels, was: Pixels, at: nat, row: nat)
    requires |now| == |was| && at + row <= |now| && now[at..] == was[at..]
    ensures now[at..at + row] == was[at..at + row] && now[at + row..] == was[at + row..]
  {
    assert now[at..][..row] == now[at..at + row] && was[at..][..row] == was[at..at + row];
    assert now[at..][row..] == now[at + row..] && was[at..][row..] == was[at + row..];
  }

  lemma Extended(was: Pixels, now: Pixels, at: nat, row: nat, done: Pixels, line: Pixels)
    requires |was| == |now| && at + row <= |now| && |done| == at && |line| == row
    requires now[..at] == done && now[at..at + row] == line && now[at + row..] == was[at + row..]
    ensures now[..at + row] == done + line
    ensures was[..at + row] != done + line <==> was[..at] != done || was[at..at + row] != line
  {
    assert now[..at + row] == now[..at] + now[at..at + row];
    assert was[..at + row] == was[..at] + was[at..at + row];
    assert (done + line)[..at] == done && (done + line)[at..] == line;
  }

  // ---- What Windows answers -------------------------------------------------------------------------

  datatype Mapping = Mapping(width: nat, lines: seq<Pixels>)
  {
    predicate Whole() { forall y :: 0 <= y < |lines| ==> |lines[y]| >= width * BYTES_PER_PIXEL }
  }

  /** A mapped frame: as many lines as it is high, each at least a row long. */
  type Surface = m: Mapping | m.Whole() witness Mapping(0, [])

  function Shown(m: Surface): Picture { Picture(Rows(m.lines, m.width * BYTES_PER_PIXEL), m.width, |m.lines|) }

  /** One try at duplication: whether it is granted, or only refused for now; how many frames moved
      nothing but the pointer; whether none came, failed or had another format; and the frame. */
  datatype Attempt = Attempt(
    granted: bool, passing: bool, pointerOnly: nat, timedOut: bool, failed: bool, badFormat: bool, surface: Surface)
  {
    predicate Maps() { granted && pointerOnly == 0 && !timedOut && !failed && !badFormat }

    /** Only the pointer moved over a picture held, or no frame came in time. */
    predicate Idles(have: bool) { (have && pointerOnly > 0) || timedOut }

    /** The try gives a picture: a new frame, or one held that nothing changed. open says that
        duplication was granted before, have that a picture of the display is held. */
    predicate Serves(open: bool, have: bool) {
      (open || granted) && if Idles(have) then have else !failed && !badFormat
    }

    /** The display cannot be duplicated, or not in a format of use. */
    predicate Refuses(open: bool, have: bool) {
      if open || granted then !Idles(have) && badFormat else !passing
    }

    /** Duplication is granted, and not given up again. */
    predicate Opens(open: bool, have: bool) {
      (open || granted) && (Idles(have) || (!failed && !badFormat))
    }

    /** The try fails in a way that may pass. */
    predicate Passes(open: bool, have: bool) {
      if open || granted then !Idles(have) && failed && !badFormat else passing
    }
  }

  /** Everything one capture is told: the desktop before and after, two tries at duplication, the copy
      of the screen, and how encoding goes. */
  datatype Answers = Answers(
    before: Desktop, after: Desktop, first: Attempt, second: Attempt, copy: Option<Picture>,
    created: bool, encodes: bool, partial: Pixels)
  {
    /** All goes well and the first try maps a frame. */
    predicate Well() { before == Default && after == Default && first.Maps() && created && encodes }

    /** A picture is to be had: by the first try, by the second after a passing failure, or by a copy. */
    predicate Pictured(tried: bool, open: bool, have: bool) {
      copy.Some?
      || (tried && (first.Serves(open, have) || (first.Passes(open, have) && second.Serves(false, have))))
    }
  }

  // ---- The cache ------------------------------------------------------------------------------------

  /** JPEG encoding and the geometry around it, whatever they are. */
  datatype Codec = Codec(encode: (Picture, Size, real) -> Pixels, fit: (int, int, int) -> Size, clamp: real -> real)
  {
    function Encoding(p: Picture, maxDimension: int, quality: real, sequence: int): Frame {
      var target := fit(p.width, p.height, maxDimension);
      Frame(encode(p, target, quality), target.width, target.height, sequence)
    }
  }

  /** Every number given so far still names the same frame. */
  ghost predicate Grown(before: map<int, Frame>, after: map<int, Frame>) {
    forall s :: s in before ==> s in after && after[s] == before[s]
  }

  const NO_FRAME := Frame([], 0, 0, 0)

  class Capturer {
    const codec: Codec
    const allowDuplication: bool

    var wic: bool
    var duplicated: Option<int>
    var unsupported: Option<int>
    var unsupportedSince: int
    var pixels: array<bv8>
    var pixelsMonitor: Option<int>
    var pixelsWidth: nat
    var pixelsHeight: nat
    var encoded: Frame
    var nextSequence: int
    var encodedValid: bool
    var encodedMaxDimension: int
    var encodedQuality: real
    ghost var emitted: map<int, Frame>
    // The shape the encoding was made with, which the code does not keep.
    ghost var encodedWidth: nat
    ghost var encodedHeight: nat

    function Kept(): Picture
      reads this, pixels
    {
      Picture(pixels[..], pixelsWidth, pixelsHeight)
    }

    /** The encoding is the one of the kept picture's shape. */
    ghost predicate RightShape()
      reads this
    {
      encodedValid ==> encodedWidth == pixelsWidth && encodedHeight == pixelsHeight
    }

    /** Everything Valid says that does not depend on the kept picture. */
    ghost predicate Remembered()
      reads this
    {
      (forall s :: s in emitted ==> s < nextSequence && emitted[s].sequence == s)
      && (encodedValid ==> wic && encoded.sequence in emitted && emitted[encoded.sequence] == encoded)
    }

    /** A valid encoding is the one of the kept bytes in the shape it was made with, under its own number. */
    ghost predicate Valid()
      reads this, pixels
    {
      Remembered()
      && (encodedValid ==>
            encoded == codec.Encoding(Picture(pixels[..], encodedWidth, encodedHeight),
                                      encodedMaxDimension, encodedQuality, encoded.sequence))
    }

    /** The kept picture and its encoding serve a capture of the display at this size and quality, if
        nothing new shows. */
    ghost predicate Reusable(display: Display, maxDimension: int, quality: real)
      reads this
    {
      encodedValid && encodedMaxDimension == maxDimension && encodedQuality == quality
      && pixelsMonitor == Some(display.monitor) && pixelsWidth == display.width && pixelsHeight == display.height
    }

    /** Duplication is to be tried for the display. */
    predicate Duplicates(display: Display)
      reads this
    {
      allowDuplication && unsupported != Some(display.monitor)
    }

    /** Duplication is tried now: it is allowed, and was not refused for the display in the last thirty seconds. */
    predicate TriesNow(display: Display, now: int)
      reads this
    {
      allowDuplication && (unsupported != Some(display.monitor) || now - unsupportedSince >= 30_000)
    }

    /** A picture of the display at its present size is held. */
    predicate Held(display: Display)
      reads this
    {
      pixelsMonitor == Some(display.monitor) && pixelsWidth == display.width && pixelsHeight == display.height
    }

    constructor (codec: Codec, allowDuplication: bool)
      ensures Valid() && RightShape() && fresh(pixels) && emitted == map[] && this.codec == codec
      ensures !encodedValid && unsupported == None && this.allowDuplication == allowDuplication
    {
      this.codec, this.allowDuplication := codec, allowDuplication;
      wic, duplicated, unsupported, unsupportedSince := false, None, None, 0;
      pixels, pixelsMonitor, pixelsWidth, pixelsHeight := new bv8[0], None, 0, 0;
      encoded, nextSequence, encodedValid, encodedMaxDimension, encodedQuality := NO_FRAME, 1, false, 0, 0.0;
      emitted, encodedWidth, encodedHeight := map[], 0, 0;
    }

    method DropPicture()
      modifies this`pixels, this`pixelsMonitor, this`pixelsWidth, this`pixelsHeight, this`encoded, this`encodedValid
      ensures fresh(pixels) && Kept() == Picture([], 0, 0) && pixelsMonitor.None? && !encodedValid
    {
      pixels := new bv8[0];
      pixelsMonitor, pixelsWidth, pixelsHeight := None, 0, 0;
      encoded, encodedValid := NO_FRAME, false;
    }

    method Release()
      requires Valid()
      modifies this
      ensures Valid() && RightShape() && fresh(pixels) && emitted == old(emitted)
      ensures Kept() == Picture([], 0, 0) && !wic && !encodedValid
    {
      duplicated := None;
      DropPicture();
      unsupported := None;
      wic := false;
    }

    /** Wait for a frame that shows a picture: None to go on and map it. */
    method WaitForFrame(display: Display, havePicture: bool, a: Attempt) returns (r: Option<Dxgi>)
      modifies this`duplicated
      ensures r != Some(NewFrame) && (a.Maps() ==> r.None?)
      ensures var open := old(duplicated) == Some(display.monitor);
              (r == Some(Lost) <==> a.Passes(open, havePicture))
              && (r == Some(Unchanged) <==> (open || a.granted) && a.Idles(havePicture))
              && (r.None? <==> a.Serves(open, havePicture) && !a.Idles(havePicture))
              && (r == Some(Unsupported) <==> a.Refuses(open, havePicture))
              && duplicated == if a.Opens(open, havePicture) then Some(display.monitor) else None
    {
      if duplicated != Some(display.monitor) {
        duplicated := None;
        if !a.granted {
          return Some(if a.passing then Lost else Unsupported);
        }
        duplicated := Some(display.monitor);
      }
      if (havePicture && a.pointerOnly > 0) || a.timedOut {
        return Some(Unchanged);
      }
      if a.failed || a.badFormat {
        duplicated := None;
        return Some(if a.badFormat then Unsupported else Lost);
      }
      return None;
    }

    /** shown is the picture of the frame that was mapped, if one was. Nothing new is reported exactly
        when its bytes are those kept, so the picture is another one exactly when its shape is. */
    method Acquire(display: Display, a: Attempt) returns (r: Dxgi, ghost shown: Option<Picture>)
      modifies this`duplicated, this`pixels, this`pixelsMonitor, this`pixelsWidth, this`pixelsHeight, pixels
      ensures pixels == old(pixels) || fresh(pixels)
      ensures shown.None? ==> Kept() == old(Kept()) && pixels == old(pixels) && pixelsMonitor == old(pixelsMonitor)
                              && r != NewFrame
      ensures shown.Some? ==> shown.value == Shown(a.surface) == Kept() && pixelsMonitor == Some(display.monitor)
                              && r in {NewFrame, Unchanged}
      ensures a.Maps() ==> shown.Some?
      ensures var open, have := old(duplicated) == Some(display.monitor), old(pixelsMonitor) == Some(display.monitor);
              (r == Lost <==> a.Passes(open, have))
              && (shown.Some? <==> a.Serves(open, have) && !a.Idles(have))
              && (r == Unchanged && shown.None? <==> (open || a.granted) && a.Idles(have))
              && (r == Unsupported <==> a.Refuses(open, have))
              && duplicated == if a.Opens(open, have) then Some(display.monitor) else None
      ensures shown.Some? ==>
                (r == Unchanged <==>
                 old(pixelsMonitor) == Some(display.monitor) && shown.value.pixels == old(Kept()).pixels)
      ensures shown.Some? && r == Unchanged ==>
                (shown.value != old(Kept()) <==>
                 shown.value.width != old(pixelsWidth) || shown.value.height != old(pixelsHeight))
    {
      var havePicture := pixelsMonitor == Some(display.monitor);
      var early := WaitForFrame(display, havePicture, a);
      if early.Some? {
        return early.value, None;
      }
      var width, lines := a.surface.width, a.surface.lines;
      var row := width * BYTES_PER_PIXEL;
      var differs := !havePicture || pixels.Length != row * |lines|;
      if pixels.Length != row * |lines| {
        pixels := new bv8[row * |lines|];
      }
      differs := CompareAndCopy(pixels, lines, row, differs);
      pixelsMonitor, pixelsWidth, pixelsHeight := Some(display.monitor), width, |lines|;
      shown := Some(Kept());
      r := if differs then NewFrame else Unchanged;
    }

    /** Try duplication, twice at most, for a picture of the display. */
    method TryDuplication(display: Display, now: int, w: Answers)
      returns (r: Option<bool>, ghost shown: Option<Picture>)
      modifies this`duplicated, this`unsupported, this`unsupportedSince, this`pixels, this`pixelsMonitor,
               this`pixelsWidth, this`pixelsHeight, pixels
      ensures pixels == old(pixels) || fresh(pixels)
      ensures shown.None? ==> Kept() == old(Kept()) && pixels == old(pixels) && pixelsMonitor == old(pixelsMonitor)
                              && r != Some(true)
      ensures shown.Some? ==> Kept() == shown.value && r.Some?
      ensures shown.Some? ==>
                (r == Some(false) <==>
                 old(pixelsMonitor) == Some(display.monitor) && shown.value.pixels == old(Kept()).pixels)
      ensures r.Some? ==> pixelsMonitor == Some(display.monitor)
      ensures var open, have := old(duplicated) == Some(display.monitor), old(pixelsMonitor) == Some(display.monitor);
              r.Some? <==> old(TriesNow(display, now))
                           && (w.first.Serves(open, have)
                               || (w.first.Passes(open, have) && w.second.Serves(false, have)))
      ensures var open, have := old(duplicated) == Some(display.monitor), old(pixelsMonitor) == Some(display.monitor);
              var again := w.first.Passes(open, have);
              if !old(TriesNow(display, now)) then duplicated == old(duplicated)
              else duplicated == if (if again then w.second.Opens(false, have) else w.first.Opens(open, have))
                                 then Some(display.monitor) else None
      ensures var open, have := old(duplicated) == Some(display.monitor), old(pixelsMonitor) == Some(display.monitor);
              if old(TriesNow(display, now))
                 && (w.first.Refuses(open, have) || (w.first.Passes(open, have) && w.second.Refuses(false, have)))
              then unsupported == Some(display.monitor) && unsupportedSince == now
              else unsupportedSince == old(unsupportedSince)
                   && unsupported == if old(unsupported == Some(display.monitor) && now - unsupportedSince >= 30_000)
                                     then None else old(unsupported)
      ensures old(Duplicates(display)) && w.first.Maps() ==>
                shown == Some(Shown(w.first.surface)) && Duplicates(display)
    {
      shown := None;
      if unsupported == Some(display.monitor) && now - unsupportedSince >= DUPLICATION_RETRY_MS {
        unsupported := None;
      }
      if !allowDuplication || unsupported == Some(display.monitor) {
        return None, None;
      }
      for attempt := 0 to 2
        invariant Kept() == old(Kept()) && pixels == old(pixels) && pixelsMonitor == old(pixelsMonitor)
        invariant shown.None? && (attempt > 0 ==> !w.first.Maps())
        invariant unsupportedSince == old(unsupportedSince)
        invariant unsupported == if old(unsupported == Some(display.monitor) && now - unsupportedSince >= 30_000)
                                 then None else old(unsupported)
        invariant if attempt == 0 then duplicated == old(duplicated)
                  else duplicated == None && w.first.Passes(old(duplicated) == Some(display.monitor),
                                                            pixelsMonitor == Some(display.monitor))
        invariant attempt == 2 ==> w.second.Passes(false, pixelsMonitor == Some(display.monitor))
        invariant old(Duplicates(display)) ==> Duplicates(display)
      {
        var result;
        result, shown := Acquire(display, if attempt == 0 then w.first else w.second);
        if result == NewFrame {
          return Some(true), shown;
        }
        if result == Unchanged {
          return if pixelsMonitor == Some(display.monitor) then Some(false) else None, shown;
        }
        if result == Unsupported {
          unsupported, unsupportedSince := Some(display.monitor), now;
          return None, None;
        }
      }
      return None, None;
    }

    /** Refresh the kept picture with what is shown, from a mapped frame or not; false when nothing
        could be had. Of a mapped frame only the bytes are compared, of another the shape as well. */
    method Refresh(display: Display, now: int, w: Answers)
      returns (ok: bool, changed: bool, ghost shown: Option<Picture>, ghost mapped: bool)
      modifies this`duplicated, this`unsupported, this`unsupportedSince, this`pixels, this`pixelsMonitor,
               this`pixelsWidth, this`pixelsHeight, pixels
      ensures pixels == old(pixels) || fresh(pixels)
      ensures !ok ==> !changed
      ensures ok <==> w.Pictured(old(TriesNow(display, now)), old(duplicated) == Some(display.monitor),
                                 old(pixelsMonitor) == Some(display.monitor))
      ensures ok ==> pixelsMonitor == Some(display.monitor)
                     && Kept() == (if shown.Some? then shown.value else old(Kept()))
                     && (shown.None? ==> old(pixelsMonitor) == pixelsMonitor && !mapped)
      ensures ok ==> (!changed <==>
                      old(pixelsMonitor) == Some(display.monitor)
                      && if mapped then Kept().pixels == old(Kept()).pixels else Kept() == old(Kept()))
      ensures old(Duplicates(display)) && w.first.Maps() ==>
                ok && mapped && shown == Some(Shown(w.first.surface)) && Duplicates(display)
    {
      changed, mapped := false, false;
      var r;
      r, shown := TryDuplication(display, now, w);
      if r.Some? {
        return true, r.value, shown, shown.Some?;
      }
      if w.copy.None? {
        return false, false, None, false;
      }
      var p := w.copy.value;
      changed := pixelsMonitor != Some(display.monitor) || p.width != pixelsWidth || p.height != pixelsHeight
                 || p.pixels != pixels[..];
      if changed {
        pixels := new bv8[|p.pixels|](i requires 0 <= i < |p.pixels| => p.pixels[i]);
        assert pixels[..] == p.pixels;
      }
      pixelsMonitor, pixelsWidth, pixelsHeight := Some(display.monitor), p.width, p.height;
      return true, changed, Some(p), false;
    }

    method Hide(d: Desktop) returns (status: Status)
      modifies this`duplicated, this`pixels, this`pixelsMonitor, this`pixelsWidth, this`pixelsHeight, this`encoded,
               this`encodedValid
      ensures fresh(pixels) && Kept() == Picture([], 0, 0) && pixelsMonitor.None? && !encodedValid
      ensures status == if d == LockedDesktop then SessionLocked else OnSecureDesktop
    {
      duplicated := None;
      DropPicture();
      status := if d == LockedDesktop then SessionLocked else OnSecureDesktop;
    }

    /** A new encoding of the kept picture under the next number. */
    method EncodeAnew(maxDimension: int, quality: real, w: Answers) returns (ok: bool)
      requires Remembered()
      modifies this`wic, this`encoded, this`nextSequence, this`encodedValid, this`encodedMaxDimension,
               this`encodedQuality, this`emitted, this`encodedWidth, this`encodedHeight
      ensures Remembered() && RightShape()
      ensures ok ==> encodedValid && encoded == codec.Encoding(Kept(), maxDimension, quality, old(nextSequence))
                     && encodedMaxDimension == maxDimension && encodedQuality == quality
                     && emitted == old(emitted)[old(nextSequence) := encoded]
      ensures !ok ==> emitted == old(emitted) && !encodedValid
      ensures ok <==> w.encodes && (old(wic) || w.created)
    {
      if !wic {
        if !w.created {
          return false;
        }
        wic := true;
      }
      var target := codec.fit(pixelsWidth, pixelsHeight, maxDimension);
      encodedValid := false;
      if !w.encodes {
        encoded := encoded.(jpeg := w.partial);
        return false;
      }
      encoded := Frame(codec.encode(Picture(pixels[..], pixelsWidth, pixelsHeight), target, quality),
                       target.width, target.height, nextSequence);
      nextSequence := nextSequence + 1;
      encodedMaxDimension, encodedQuality := maxDimension, quality;
      encodedValid := true;
      emitted := emitted[encoded.sequence := encoded];
      encodedWidth, encodedHeight := pixelsWidth, pixelsHeight;
      return true;
    }

    /** Encode the kept picture, unless the last encoding is still the one asked for. */
    method Encode(changed: bool, maxDimension: int, quality: real, w: Answers) returns (status: Status, frame: Frame)
      requires Remembered() && (!changed ==> Valid())
      modifies this`wic, this`encoded, this`nextSequence, this`encodedValid, this`encodedMaxDimension,
               this`encodedQuality, this`emitted, this`encodedWidth, this`encodedHeight
      ensures Valid() && status in {Done, Broken} && Grown(old(emitted), emitted)
      ensures status == Done ==>
                frame == encoded && encodedValid && encodedMaxDimension == maxDimension && encodedQuality == quality
      ensures if old(encodedValid && encodedMaxDimension == maxDimension && encodedQuality == quality) && !changed
              then status == Done && frame == old(encoded)
                   && encodedWidth == old(encodedWidth) && encodedHeight == old(encodedHeight)
              else RightShape()
      ensures w.created && w.encodes ==> status == Done
      ensures status == Done <==>
                old(encodedValid && !changed && encodedMaxDimension == maxDimension && encodedQuality == quality)
                || (w.encodes && (old(wic) || w.created))
    {
      if !(encodedValid && !changed && encodedMaxDimension == maxDimension && encodedQuality == quality) {
        var ok := EncodeAnew(maxDimension, quality, w);
        if !ok {
          return Broken, NO_FRAME;
        }
      }
      return Done, encoded;
    }

    /** Drop a picture that is not of this display as it is now, then refresh. */
    method TakePicture(display: Display, now: int, w: Answers)
      returns (ok: bool, changed: bool, ghost shown: Option<Picture>, ghost mapped: bool)
      requires Valid()
      modifies this`duplicated, this`unsupported, this`unsupportedSince, this`pixels, this`pixelsMonitor,
               this`pixelsWidth, this`pixelsHeight, this`encoded, this`encodedValid, pixels
      ensures pixels == old(pixels) || fresh(pixels)
      ensures Remembered() && (!changed ==> Valid())
      ensures ok <==> w.Pictured(old(TriesNow(display, now)), old(duplicated) == Some(display.monitor),
                                 old(Held(display)))
      ensures ok ==> pixelsMonitor == Some(display.monitor)
                     && (if shown.Some? then Kept() == shown.value
                         else Kept() == old(Kept()) && old(pixelsMonitor) == pixelsMonitor && !mapped)
      ensures ok && !changed ==> encodedValid == old(encodedValid) && encoded == old(encoded)
      ensures ok ==> (!changed <==>
                      old(pixelsMonitor == Some(display.monitor)
                          && pixelsWidth == display.width && pixelsHeight == display.height)
                      && if mapped then Kept().pixels == old(Kept()).pixels else Kept() == old(Kept()))
      ensures !ok ==> Kept() == Picture([], 0, 0) && !encodedValid && !changed
      ensures old(Duplicates(display)) && w.first.Maps() ==>
                ok && mapped && shown == Some(Shown(w.first.surface)) && Duplicates(display)
    {
      if pixelsMonitor != Some(display.monitor) || pixelsWidth != display.width || pixelsHeight != display.height {
        DropPicture();
      }
      ok, changed, shown, mapped := Refresh(display, now, w);
      if !ok {
        DropPicture();
        changed := false;
      }
    }

    /** One capture. A frame is the encoding, at the size and quality asked for, of the bytes now kept; a
        number once given always names the same frame; nothing from before a lock is kept. The old
        encoding is reused exactly when a fitting one was kept and nothing new was reported, and
        its shape is then the wrong one exactly when a mapped frame had the kept bytes but not the
        size of the display. */
    method Capture(display: Option<Display>, maxDimension: int, quality: real, now: int, w: Answers)
      returns (status: Status, frame: Frame, ghost shown: Option<Picture>, ghost mapped: bool, ghost reused: bool)
      requires Valid()
      modifies this, pixels
      ensures Valid() && (pixels == old(pixels) || fresh(pixels)) && Grown(old(emitted), emitted)
      ensures status == Done ==>
                frame == encoded && frame.sequence in emitted && emitted[frame.sequence] == frame
                && frame == codec.Encoding(Picture(pixels[..], encodedWidth, encodedHeight),
                                           maxDimension, codec.clamp(quality), frame.sequence)
                && encodedValid && encodedMaxDimension == maxDimension && encodedQuality == codec.clamp(quality)
                && display.Some? && pixelsMonitor == Some(display.value.monitor)
                && Kept() == (if shown.Some? then shown.value else old(Kept()))
                && (shown.None? ==> old(pixelsMonitor) == pixelsMonitor && !mapped)
      ensures status == Done ==>
                (reused <==> old(Reusable(display.value, maxDimension, codec.clamp(quality)))
                             && if mapped then Kept().pixels == old(Kept()).pixels else Kept() == old(Kept()))
                && (if reused then frame == old(encoded) && encodedWidth == old(encodedWidth)
                                   && encodedHeight == old(encodedHeight)
                    else RightShape())
      ensures status == Done && old(RightShape()) ==>
                (!RightShape() <==>
                 reused && mapped
                     && (shown.value.width != display.value.width || shown.value.height != display.value.height))
      ensures w.before != Default || (display.Some? && w.after != Default) ==>
                status == if (if w.before != Default then w.before else w.after) == LockedDesktop then SessionLocked
                          else OnSecureDesktop
      ensures w.before == Default && (display.None? || w.after == Default) ==>
                (status == Done
                 <==> display.Some?
                      && w.Pictured(old(TriesNow(display.value, now)),
                                    old(duplicated) == Some(display.value.monitor), old(Held(display.value)))
                      && (reused || (w.encodes && (old(wic) || w.created))))
                && (status != Done ==> status == Broken)
      ensures status != Done && display.Some? ==> RightShape()
      ensures status in {SessionLocked, OnSecureDesktop} ==> Kept() == Picture([], 0, 0) && !encodedValid
      ensures display.Some? && old(Duplicates(display.value)) && w.Well() ==>
                status == Done && mapped && shown == Some(Shown(w.first.surface)) && Duplicates(display.value)
    {
      frame, shown, mapped, reused := NO_FRAME, None, false, false;
      if w.before != Default {
        status := Hide(w.before);
        return;
      }
      if display.None? {
        status := Broken;
        return;
      }
      var ok, changed;
      ok, changed, shown, mapped := TakePicture(display.value, now, w);
      if !ok {
        status := if w.after == LockedDesktop then SessionLocked
                  else if w.after == SecureDesktop then OnSecureDesktop else Broken;
        return;
      }
      if w.after != Default {
        status := Hide(w.after);
        return;
      }
      reused := encodedValid && !changed && encodedMaxDimension == maxDimension
                && encodedQuality == codec.clamp(quality);
      status, frame := Encode(changed, maxDimension, codec.clamp(quality), w);
    }
  }

  const WIDE := Mapping(2, [[0, 0, 0, 0, 1, 1, 1, 1]])
  const TALL := Mapping(1, [[0, 0, 0, 0], [1, 1, 1, 1]])

  /** Why the shape matters: two mapped frames of different shape can have the same bytes, and then the
      row loop reports nothing new. */
  lemma SameBytesOtherShape()
    ensures Shown(WIDE).pixels == Shown(TALL).pixels && Shown(WIDE) != Shown(TALL)
  {
    assert TALL.lines[..1] == [[0, 0, 0, 0]] && TALL.lines[..1][..0] == [];
    RowsStep(TALL.lines, 4, 0);
    RowsStep(TALL.lines, 4, 1);
    assert TALL.lines[..2] == TALL.lines;
    RowsStep(WIDE.lines, 8, 0);
    assert WIDE.lines[..1] == WIDE.lines;
  }

  function Mapped(m: Surface): Answers {
    var a := Attempt(true, false, 0, false, false, false, m);
    Answers(Default, Default, a, a, None, true, true, [])
  }

  /** The first frame, encoded as it is. */
  method ShowWide(codec: Codec, maxDimension: int, quality: real) returns (first: Frame, c: Capturer)
    ensures fresh(c) && fresh(c.pixels) && c.Valid() && c.RightShape() && c.codec == codec && c.Kept() == Shown(WIDE)
    ensures first == c.encoded == codec.Encoding(Shown(WIDE), maxDimension, codec.clamp(quality), first.sequence)
    ensures var display := Display(0, 2, 1);
            c.Reusable(display, maxDimension, codec.clamp(quality)) && c.Duplicates(display)
  {
    c := new Capturer(codec, true);
    var status;
    ghost var shown, mapped, reused;
    status, first, shown, mapped, reused := c.Capture(Some(Display(0, 2, 1)), maxDimension, quality, 0, Mapped(WIDE));
    assert c.Kept() == Shown(WIDE);
  }

  /** A frame of the bytes kept, in another shape than the display's: the old encoding is returned. */
  method ShowSameBytes(c: Capturer, m: Surface, display: Display, maxDimension: int, quality: real)
    returns (second: Frame)
    requires c.Valid() && c.RightShape() && c.Reusable(display, maxDimension, c.codec.clamp(quality))
    requires c.Duplicates(display) && Shown(m).pixels == c.Kept().pixels
    requires Shown(m).width != display.width || Shown(m).height != display.height
    modifies c, c.pixels
    ensures c.Valid() && !c.RightShape() && c.Kept() == Shown(m) && second == old(c.encoded)
  {
    var status;
    ghost var shown, mapped, reused;
    status, second, shown, mapped, reused := c.Capture(Some(display), maxDimension, quality, 0, Mapped(m));
    assert reused;
  }

  /** Two captures of one display, in which the second frame has the bytes of the first but not its shape:
      the second capture returns the first one's encoding. */
  method OldShapeReturned(codec: Codec, maxDimension: int, quality: real)
    returns (first: Frame, second: Frame, c: Capturer)
    ensures c.Valid() && c.codec == codec && c.Kept() == Shown(TALL) && Shown(TALL) != Shown(WIDE)
    ensures second == first == codec.Encoding(Shown(WIDE), maxDimension, codec.clamp(quality), first.sequence)
    ensures !c.RightShape()
  {
    SameBytesOtherShape();
    first, c := ShowWide(codec, maxDimension, quality);
    second := ShowSameBytes(c, TALL, Display(0, 2, 1), maxDimension, quality);
  }
}
