/**
 * The argument lists filmtag hands to `exiftool`: one that strips the
 * scanner's metadata (keeping the colour profile), and one that writes the
 * camera, lens and film tags. The decoder reads the tag values back, which
 * shows that every value reaches the command intact and that the files follow
 * in their original order.
 */
module ExifTool {
  import opened Wrappers
  import opened Gear
  import opened Decimal

  /** Delete all tags, copy the ICC profile back from the file itself, overwrite in place, keep file times. */
  const StripFlags: seq<string> := ["-all=", "-tagsfromfile", "@", "-icc_profile", "-overwrite_original", "-P"]

  /** The two control flags that end the apply list. */
  const ApplyControls: seq<string> := ["-overwrite_original", "-P"]

  /** `stripScannerMetadata`: the fixed flags, then the files in their original order. */
  function StripArgs(files: seq<string>): (args: seq<string>)
    ensures |args| == 6 + |files|
    ensures args[..6] == StripFlags && args[6..] == files
  {
    StripFlags + files
  }

  /** The values `applyFilmMetadata` writes, before they are formatted. */
  datatype Tags = Tags(
    make: string,
    model: string,
    lensModel: string,
    focalLength: int,
    maxAperture: Aperture,
    iso: int,
    userComment: string)

  /** The tags for one selection: the film's name is written as the user comment. */
  function TagsFor(camera: Camera, lens: Lens, film: FilmStock): Tags {
    Tags(camera.make, camera.model, lens.name, lens.focalLength, lens.maxAperture, film.iso, film.name)
  }

  /** The seven tag assignments of `applyFilmMetadata`, formatted as `fmt.Sprintf` does. */
  function TagArgs(t: Tags): (args: seq<string>)
    ensures |args| == 7
  {
    [ "-make=" + t.make,
      "-model=" + t.model,
      "-lensmodel=" + t.lensModel,
      "-focallength=" + IntToDecimal(t.focalLength),
      "-maxaperturevalue=" + TenthsToDecimal(t.maxAperture.tenths),
      "-iso=" + IntToDecimal(t.iso),
      "-usercomment=" + t.userComment ]
  }

  /** `applyFilmMetadata`: seven tag assignments and two control flags, then the files in order. */
  function ApplyArgs(camera: Camera, lens: Lens, film: FilmStock, files: seq<string>): (args: seq<string>)
    ensures |args| == 9 + |files|
    ensures args[7..9] == ApplyControls && args[9..] == files
  {
    TagArgs(TagsFor(camera, lens, film)) + ApplyControls + files
  }

  /** The value of a `-tag=value` argument, if it has that prefix. */
  function TagValue(prefix: string, arg: string): Option<string> {
    if |prefix| <= |arg| && arg[..|prefix|] == prefix then Some(arg[|prefix|..]) else None
  }

  lemma TagValueOf(prefix: string, value: string)
    ensures TagValue(prefix, prefix + value) == Some(value)
  {
  }

  /** Reads an apply argument list back into its tags and its files. */
  function DecodeApplyArgs(args: seq<string>): Option<(Tags, seq<string>)> {
    if |args| < 9 || args[7..9] != ApplyControls then None
    else
      var make, model, lensModel := TagValue("-make=", args[0]), TagValue("-model=", args[1]), TagValue("-lensmodel=", args[2]);
      var focal, aperture := TagValue("-focallength=", args[3]), TagValue("-maxaperturevalue=", args[4]);
      var iso, comment := TagValue("-iso=", args[5]), TagValue("-usercomment=", args[6]);
      if make.None? || model.None? || lensModel.None? || focal.None? || aperture.None? || iso.None? || comment.None? then None
      else
        var f, a, i := ParseInt(focal.value), ParseTenths(aperture.value), ParseInt(iso.value);
        if f.None? || a.None? || i.None? then None
        else Some((Tags(make.value, model.value, lensModel.value, f.value, Aperture(a.value), i.value, comment.value), args[9..]))
  }

  /**
   * The apply list carries exactly the selected camera, lens and film values
   * and exactly the given files, in order: decoding it gives them all back.
   */
  lemma ApplyArgsRoundTrip(camera: Camera, lens: Lens, film: FilmStock, files: seq<string>)
    ensures DecodeApplyArgs(ApplyArgs(camera, lens, film, files)) == Some((TagsFor(camera, lens, film), files))
  {
    var t := TagsFor(camera, lens, film);
    var args := ApplyArgs(camera, lens, film, files);
    assert args[..7] == TagArgs(t);
    TagValueOf("-make=", t.make);
    TagValueOf("-model=", t.model);
    TagValueOf("-lensmodel=", t.lensModel);
    TagValueOf("-focallength=", IntToDecimal(t.focalLength));
    TagValueOf("-maxaperturevalue=", TenthsToDecimal(t.maxAperture.tenths));
    TagValueOf("-iso=", IntToDecimal(t.iso));
    TagValueOf("-usercomment=", t.userComment);
    IntToDecimalRoundTrip(t.focalLength);
    TenthsToDecimalRoundTrip(t.maxAperture.tenths);
    IntToDecimalRoundTrip(t.iso);
  }
}
