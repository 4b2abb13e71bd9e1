/**
 * The gear database: cameras keyed by name, lenses, film stocks, the lookups
 * used in flag mode, the film-format rule and film menu used in both modes,
 * and the in-place updates made when the user enters gear by hand.
 */
module Gear {
  import opened Wrappers

  datatype CameraType = Fixed | Interchangeable | MediumFormat

  /** A maximum aperture, as an f-number counted in tenths (f/2.8 is 28). */
  datatype Aperture = Aperture(tenths: nat)

  datatype Lens = Lens(name: string, focalLength: int, maxAperture: Aperture)

  /** `FixedLens` is a pointer in the source; None stands for nil. */
  datatype Camera = Camera(
    make: string,
    model: string,
    kind: CameraType,
    fixedLens: Option<Lens>,
    compatibleLenses: seq<Lens>)

  datatype FilmStock = FilmStock(name: string, iso: int, format: string)

  datatype LookupError =
    | CameraNotFound(cameraName: string)
    | LensNotFound(lensName: string)
    | FilmNotFound(filmName: string, filmFormat: string)

  /** The name every menu's manual-entry sentinel carries. */
  const ManualEntry := "Manual Entry"

  /** The roll format a camera takes: "120" for medium format, "35mm" for every other camera. */
  function FilmFormat(kind: CameraType): (format: string)
    ensures format == "120" <==> kind == MediumFormat
    ensures format == "35mm" <==> kind != MediumFormat
  {
    if kind == MediumFormat then "120" else "35mm"
  }

  /** The key under which a manually entered camera is stored. */
  function CameraKey(make: string, model: string): string {
    make + " " + model
  }

  /** A camera entered by hand: fixed-lens type, with no lens of any kind. */
  function ManualCamera(make: string, model: string): Camera {
    Camera(make, model, Fixed, None, [])
  }

  /** A camera with one more lens at the end of its compatible lenses. */
  function WithLens(camera: Camera, lens: Lens): Camera {
    camera.(compatibleLenses := camera.compatibleLenses + [lens])
  }

  /** True when lens lookup and lens selection skip the lens list altogether. */
  predicate HasFixedLens(camera: Camera) {
    camera.kind == Fixed && camera.fixedLens.Some?
  }

  // ---------------------------------------------------------------------------
  // Lens lookup

  /** The index of the first lens called `name`, or |lenses| when there is none. */
  function FirstLensNamed(lenses: seq<Lens>, name: string): (k: nat)
    ensures k <= |lenses|
    ensures k < |lenses| ==> lenses[k].name == name
    ensures forall j :: 0 <= j < k ==> lenses[j].name != name
    decreases |lenses|
  {
    if lenses == [] then 0
    else if lenses[0].name == name then 0
    else 1 + FirstLensNamed(lenses[1..], name)
  }

  /**
   * `findLensByName`: a fixed-lens camera answers with its lens whatever the
   * name; any other camera answers with the first compatible lens of that
   * name, or fails when it has none.
   */
  function LensLookup(camera: Camera, name: string): (r: Result<Lens, LookupError>)
    ensures HasFixedLens(camera) ==> r == Success(camera.fixedLens.value)
    ensures !HasFixedLens(camera) ==>
      (r.Success? <==> exists i :: 0 <= i < |camera.compatibleLenses| && camera.compatibleLenses[i].name == name)
    ensures !HasFixedLens(camera) && r.Success? ==>
      exists i :: 0 <= i < |camera.compatibleLenses| && camera.compatibleLenses[i] == r.value
        && r.value.name == name
        && forall j :: 0 <= j < i ==> camera.compatibleLenses[j].name != name
    ensures r.Failure? ==> r.error == LensNotFound(name)
  {
    if HasFixedLens(camera) then Success(camera.fixedLens.value)
    else
      var k := FirstLensNamed(camera.compatibleLenses, name);
      if k < |camera.compatibleLenses| then Success(camera.compatibleLenses[k])
      else Failure(LensNotFound(name))
  }

  /** `findLensByName`, as the source runs it: a loop that returns at the first match. */
  method FindLensByName(camera: Camera, name: string) returns (r: Result<Lens, LookupError>)
    ensures r == LensLookup(camera, name)
  {
    if camera.kind == Fixed && camera.fixedLens.Some? {
      return Success(camera.fixedLens.value);
    }
    var lenses := camera.compatibleLenses;
    for i := 0 to |lenses|
      invariant forall j :: 0 <= j < i ==> lenses[j].name != name
    {
      if lenses[i].name == name {
        return Success(lenses[i]);
      }
    }
    return Failure(LensNotFound(name));
  }

  /** A camera entered by hand has no lens: every lens lookup on it fails. */
  lemma ManualCameraHasNoLens(make: string, model: string, name: string)
    ensures LensLookup(ManualCamera(make, model), name) == Failure(LensNotFound(name))
  {
  }

  /**
   * Appending a lens to any camera: lookups that already
   * succeeded are unchanged (an earlier lens of the same name shadows the new
   * one), and a lookup of the new lens's name that failed before now finds it.
   */
  lemma {:induction false} LensLookupAfterAppend(camera: Camera, lens: Lens, name: string)
    ensures LensLookup(WithLens(camera, lens), name) ==
      if LensLookup(camera, name).Success? then LensLookup(camera, name)
      else if lens.name == name then Success(lens)
      else Failure(LensNotFound(name))
  {
    FirstLensNamedAppend(camera.compatibleLenses, lens, name);
  }

  lemma {:induction false} FirstLensNamedAppend(lenses: seq<Lens>, lens: Lens, name: string)
    ensures FirstLensNamed(lenses + [lens], name) ==
      if FirstLensNamed(lenses, name) < |lenses| then FirstLensNamed(lenses, name)
      else if lens.name == name then |lenses|
      else |lenses| + 1
    decreases |lenses|
  {
    if lenses != [] {
      assert (lenses + [lens])[1..] == lenses[1..] + [lens];
      FirstLensNamedAppend(lenses[1..], lens, name);
    }
  }

  /** A lens entered by hand for a camera entered by hand is then found by name. */
  lemma ManualLensFoundOnManualCamera(make: string, model: string, lens: Lens)
    ensures LensLookup(WithLens(ManualCamera(make, model), lens), lens.name) == Success(lens)
  {
  }

  // ---------------------------------------------------------------------------
  // Film lookup and the film menu

  predicate FilmMatches(film: FilmStock, name: string, format: string) {
    film.name == name && film.format == format
  }

  /** The index of the first stock with this name and format, or |stocks| when there is none. */
  function FirstFilmMatching(stocks: seq<FilmStock>, name: string, format: string): (k: nat)
    ensures k <= |stocks|
    ensures k < |stocks| ==> FilmMatches(stocks[k], name, format)
    ensures forall j :: 0 <= j < k ==> !FilmMatches(stocks[j], name, format)
    decreases |stocks|
  {
    if stocks == [] then 0
    else if FilmMatches(stocks[0], name, format) then 0
    else 1 + FirstFilmMatching(stocks[1..], name, format)
  }

  /** `findFilmByName`: the first stock, in list order, with both this name and this format. */
  function FilmLookup(stocks: seq<FilmStock>, name: string, format: string): (r: Result<FilmStock, LookupError>)
    ensures r.Success? <==> exists i :: 0 <= i < |stocks| && FilmMatches(stocks[i], name, format)
    ensures r.Success? ==>
      exists i :: 0 <= i < |stocks| && stocks[i] == r.value && FilmMatches(r.value, name, format)
        && forall j :: 0 <= j < i ==> !FilmMatches(stocks[j], name, format)
    ensures r.Failure? ==> r.error == FilmNotFound(name, format)
  {
    var k := FirstFilmMatching(stocks, name, format);
    if k < |stocks| then Success(stocks[k]) else Failure(FilmNotFound(name, format))
  }

  lemma {:induction false} FirstFilmMatchingAppend(stocks: seq<FilmStock>, film: FilmStock, name: string, format: string)
    ensures FirstFilmMatching(stocks + [film], name, format) ==
      if FirstFilmMatching(stocks, name, format) < |stocks| then FirstFilmMatching(stocks, name, format)
      else if FilmMatches(film, name, format) then |stocks|
      else |stocks| + 1
    decreases |stocks|
  {
    if stocks != [] {
      assert (stocks + [film])[1..] == stocks[1..] + [film];
      FirstFilmMatchingAppend(stocks[1..], film, name, format);
    }
  }

  /**
   * Appending a film stock: lookups that already succeeded are unchanged (an
   * earlier stock with the same name and format shadows the new one), and a
   * failed lookup of the new stock's name and format now finds it.
   */
  lemma FilmLookupAfterAppend(stocks: seq<FilmStock>, film: FilmStock, name: string, format: string)
    ensures FilmLookup(stocks + [film], name, format) ==
      if FilmLookup(stocks, name, format).Success? then FilmLookup(stocks, name, format)
      else if FilmMatches(film, name, format) then Success(film)
      else Failure(FilmNotFound(name, format))
  {
    FirstFilmMatchingAppend(stocks, film, name, format);
  }

  /** The stocks of one format, in their original order. */
  function StocksOfFormat(stocks: seq<FilmStock>, format: string): (r: seq<FilmStock>)
    ensures |r| <= |stocks|
    ensures forall i :: 0 <= i < |r| ==> r[i].format == format
    decreases |stocks|
  {
    if stocks == [] then []
    else if stocks[0].format == format then [stocks[0]] + StocksOfFormat(stocks[1..], format)
    else StocksOfFormat(stocks[1..], format)
  }

  /** `StocksOfFormat` keeps exactly the stocks of that format. */
  lemma {:induction false} StocksOfFormatMembers(stocks: seq<FilmStock>, format: string, film: FilmStock)
    ensures film in StocksOfFormat(stocks, format) <==> film in stocks && film.format == format
    decreases |stocks|
  {
    if stocks != [] {
      StocksOfFormatMembers(stocks[1..], format, film);
      assert stocks == [stocks[0]] + stocks[1..];
    }
  }

  /** `StocksOfFormat` keeps the original order: it distributes over concatenation. */
  lemma {:induction false} StocksOfFormatConcat(s: seq<FilmStock>, t: seq<FilmStock>, format: string)
    ensures StocksOfFormat(s + t, format) == StocksOfFormat(s, format) + StocksOfFormat(t, format)
    decreases |s|
  {
    if s != [] {
      assert (s + t)[1..] == s[1..] + t;
      StocksOfFormatConcat(s[1..], t, format);
    } else {
      assert s + t == t;
    }
  }

  /** The sentinel that ends the film menu. */
  function ManualFilm(format: string): FilmStock {
    FilmStock(ManualEntry, 0, format)
  }

  /** The film menu of `selectFilmStock`: the stocks of the format, then the manual-entry sentinel. */
  function FilmMenuFor(stocks: seq<FilmStock>, format: string): (menu: seq<FilmStock>)
    ensures |menu| == |StocksOfFormat(stocks, format)| + 1
    ensures menu[|menu| - 1] == ManualFilm(format)
    ensures menu[..|menu| - 1] == StocksOfFormat(stocks, format)
  {
    StocksOfFormat(stocks, format) + [ManualFilm(format)]
  }

  /**
   * Picking index `idx` of the film menu: the last index means manual entry;
   * every other index is a stock of the database of the camera's format.
   */
  lemma FilmMenuChoice(stocks: seq<FilmStock>, format: string, idx: nat)
    requires idx < |FilmMenuFor(stocks, format)|
    ensures idx == |FilmMenuFor(stocks, format)| - 1 ==> FilmMenuFor(stocks, format)[idx] == ManualFilm(format)
    ensures idx < |FilmMenuFor(stocks, format)| - 1 ==>
      FilmMenuFor(stocks, format)[idx] in stocks && FilmMenuFor(stocks, format)[idx].format == format
  {
    var menu := FilmMenuFor(stocks, format);
    if idx < |menu| - 1 {
      assert menu[idx] in StocksOfFormat(stocks, format);
      StocksOfFormatMembers(stocks, format, menu[idx]);
    }
  }

  // ---------------------------------------------------------------------------
  // The global configuration

  /** What flag mode resolves its three names to. */
  datatype Selection = Selection(camera: Camera, lens: Lens, film: FilmStock)

  /**
   * `gearConfig`: the cameras by name and the list of film stocks. The source
   * keeps one global value and updates it in place when gear is entered by hand.
   */
  class GearDatabase {
    var cameras: map<string, Camera>
    var filmStocks: seq<FilmStock>

    constructor (cameras: map<string, Camera>, filmStocks: seq<FilmStock>)
      ensures this.cameras == cameras && this.filmStocks == filmStocks
    {
      this.cameras := cameras;
      this.filmStocks := filmStocks;
    }

    /** `findCameraByName`: the camera stored under exactly this key, unchanged. */
    function FindCameraByName(name: string): (r: Result<Camera, LookupError>)
      reads this
      ensures r.Success? <==> name in cameras
      ensures r.Success? ==> r.value == cameras[name]
      ensures r.Failure? ==> r.error == CameraNotFound(name)
    {
      if name in cameras then Success(cameras[name]) else Failure(CameraNotFound(name))
    }

    /** `findFilmByName`: a loop over the film stocks that returns at the first match. */
    method FindFilmByName(name: string, format: string) returns (r: Result<FilmStock, LookupError>)
      ensures r == FilmLookup(filmStocks, name, format)
    {
      var stocks := filmStocks;
      for i := 0 to |stocks|
        invariant forall j :: 0 <= j < i ==> !FilmMatches(stocks[j], name, format)
      {
        if stocks[i].name == name && stocks[i].format == format {
          return Success(stocks[i]);
        }
      }
      return Failure(FilmNotFound(name, format));
    }

    /** The filter loop of `selectFilmStock`, with the manual-entry sentinel appended. */
    method FilmMenu(camera: Camera) returns (menu: seq<FilmStock>)
      ensures menu == FilmMenuFor(filmStocks, FilmFormat(camera.kind))
    {
      var format := FilmFormat(camera.kind);
      var filtered: seq<FilmStock> := [];
      for i := 0 to |filmStocks|
        invariant filtered == StocksOfFormat(filmStocks[..i], format)
      {
        StocksOfFormatConcat(filmStocks[..i], [filmStocks[i]], format);
        assert filmStocks[..i + 1] == filmStocks[..i] + [filmStocks[i]];
        if filmStocks[i].format == format {
          filtered := filtered + [filmStocks[i]];
        }
      }
      assert filmStocks[..|filmStocks|] == filmStocks;
      menu := filtered + [ManualFilm(format)];
    }

    /**
     * Manual camera entry in `selectCamera`: a fixed-lens camera with no lens,
     * stored under "make model", replacing whatever was stored there.
     */
    method AddManualCamera(make: string, model: string) returns (camera: Camera)
      modifies this
      ensures camera == ManualCamera(make, model)
      ensures cameras == old(cameras)[CameraKey(make, model) := camera]
      ensures filmStocks == old(filmStocks)
      ensures FindCameraByName(CameraKey(make, model)) == Success(camera)
    {
      camera := Camera(make, model, Fixed, None, []);
      cameras := cameras[make + " " + model := camera];
    }

    /**
     * Manual lens entry in `selectLens`: the lens goes at the end of the lens
     * list of the camera stored under "Make Model", if there is one; nothing
     * else changes, and with no such key nothing changes at all.
     */
    method AddManualLens(camera: Camera, lens: Lens)
      modifies this
      ensures var key := CameraKey(camera.make, camera.model);
        cameras == if key in old(cameras) then old(cameras)[key := WithLens(old(cameras)[key], lens)]
                   else old(cameras)
      ensures filmStocks == old(filmStocks)
    {
      var cameraKey := camera.make + " " + camera.model;
      if cameraKey in cameras {
        var cam := cameras[cameraKey];
        cam := cam.(compatibleLenses := cam.compatibleLenses + [lens]);
        cameras := cameras[cameraKey := cam];
      }
    }

    /**
     * Manual film entry in `selectFilmStock`: a stock of the camera's format is
     * appended to the film list; the earlier stocks are unchanged.
     */
    method AddManualFilm(camera: Camera, name: string, iso: int) returns (film: FilmStock)
      modifies this
      ensures film == FilmStock(name, iso, FilmFormat(camera.kind))
      ensures filmStocks == old(filmStocks) + [film]
      ensures cameras == old(cameras)
      ensures FilmLookup(old(filmStocks), name, film.format).Failure? ==>
        FilmLookup(filmStocks, name, film.format) == Success(film)
    {
      var format := "35mm";
      if camera.kind == MediumFormat {
        format := "120";
      }
      film := FilmStock(name, iso, format);
      FilmLookupAfterAppend(filmStocks, film, name, format);
      filmStocks := filmStocks + [film];
    }

    /**
     * The lookups of `runFlagMode`, in order: camera, then lens, then the film
     * of the camera's format. The first failure is the answer; on success the
     * film always has the format the camera takes.
     */
    method ResolveFlags(cameraName: string, lensName: string, filmName: string)
      returns (r: Result<Selection, LookupError>)
      ensures cameraName !in cameras ==> r == Failure(CameraNotFound(cameraName))
      ensures cameraName in cameras && LensLookup(cameras[cameraName], lensName).Failure? ==>
        r == Failure(LensNotFound(lensName))
      ensures cameraName in cameras && LensLookup(cameras[cameraName], lensName).Success? ==>
        var camera := cameras[cameraName];
        var film := FilmLookup(filmStocks, filmName, FilmFormat(camera.kind));
        r == match film
             case Success(f) => Success(Selection(camera, LensLookup(camera, lensName).value, f))
             case Failure(e) => Failure(e)
      ensures r.Success? ==> r.value.film.format == FilmFormat(r.value.camera.kind)
    {
      var cam := FindCameraByName(cameraName);
      if cam.Failure? {
        return Failure(cam.error);
      }
      var camera := cam.value;
      var lens := FindLensByName(camera, lensName);
      if lens.Failure? {
        return Failure(lens.error);
      }
      var format := "35mm";
      if camera.kind == MediumFormat {
        format := "120";
      }
      var film := FindFilmByName(filmName, format);
      if film.Failure? {
        return Failure(film.error);
      }
      return Success(Selection(camera, lens.value, film.value));
    }
  }
}
