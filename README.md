# filmtag decision logic in Dafny

filmtag tags scanned film photographs with the camera, lens and film stock they were
shot with. First it strips the scanner's metadata, then it writes the new tags. Both
steps run the external `exiftool` utility. This project models the part of
`filmtag.go` that decides what happens, and proves properties of that model:

- **File checks** (`paths.dfy`, `processing.dfy`). Go's `filepath.Ext` is modelled
  with the Unix separator. `isJPEG` lower-cases the final extension and compares it.
  `validateFiles` checks each path in list order. It checks existence first, then
  the type, and stops at the first failure. An `os.Stat` oracle stands in for the
  file system.
- **The gear database** (`gear.dfy`). These are the `Camera`, `Lens`, `FilmStock`
  and `GearConfig` records and the three lookups used in flag mode. Also here: the
  rule that picks the film format from the camera type, the film menu of
  `selectFilmStock`, and the three in-place updates to the global `gearConfig`
  when the user enters a camera, lens or film by hand. The global is a class,
  `GearDatabase`. Its fields are the camera map and the film list.
- **Command planning** (`exiftool.dfy`, `decimal.dfy`, `processing.dfy`). These are
  the two `exiftool` argument lists. `%d` is modelled exactly, and `%.1f` exactly for apertures held in tenths, with
  parsers, to prove that the apply list can be decoded back into the selected
  values and the files. `processFiles` is a pure plan. It returns the `exiftool`
  runs in the order issued and the final outcome. A second oracle says whether
  each run succeeds.

A camera entered by hand is stored with type `Fixed` and no lens at all
(filmtag.go:316). After that,
`findLensByName` fails for it whatever lens name is given
(`Gear.ManualCameraHasNoLens`). This lasts until a lens is added to its compatible
lenses by hand (`Gear.ManualLensFoundOnManualCamera`).

## Model

| member | source | states |
|---|---|---|
| `Paths.Ext` | filmtag.go:206 | The extension is the suffix that starts at the last '.' of the final path element. It contains no further '.' or separator. It is empty exactly when the final element has no '.'. |
| `Paths.ExtAtLastDot` | filmtag.go:206 | Any '.' with no '.' or separator after it marks where the extension starts. |
| `Paths.IsJPEG` | filmtag.go:205-208 | `isJPEG` compares the lower-cased extension with ".jpg" and ".jpeg". Its partner lemma `Paths.IsJPEGIffSuffix` characterises the names it accepts. |
| `Paths.IsJPEGIffSuffix` | filmtag.go:205-208 | A name is accepted exactly when it ends in ".jpg" or ".jpeg", in any mix of case. |
| `Paths.UpperCaseExtensionAccepted` | filmtag.go:205-208 | "roll-001/IMG_0001.JPG" is accepted. |
| `Paths.DoubleExtensionRejected` | filmtag.go:205-208 | "a.jpg.png" is rejected: only the last extension counts. |
| `Paths.NoDotRejected` | filmtag.go:205-208 | "jpg", which has no dot, is rejected. |
| `Paths.DotInDirectoryRejected` | filmtag.go:205-208 | "roll.jpg/notes" is rejected: a dot in a directory name is not an extension. |
| `Processing.CheckFile` | filmtag.go:226-231 | One path passes exactly when it is not reported missing and has a JPEG name. |
| `Processing.Validate` | filmtag.go:224-234 | Validation succeeds exactly when every path exists and has a JPEG name. |
| `Processing.ValidateReportsFirstFailure` | filmtag.go:224-234 | On failure, the error names the first failing path in list order. The error is "not found" if that path is missing, otherwise "unsupported type". |
| `Processing.MissingReportedBeforeType` | filmtag.go:226-231 | A missing path that is also not a JPEG name is reported as missing. |
| `Processing.ValidateFiles` | filmtag.go:224-234 | The early-return loop computes exactly `Validate`. |
| `Gear.FilmFormat` | filmtag.go:386-389 | The format is "120" exactly for medium-format cameras and "35mm" for every other camera. |
| `Gear.FirstLensNamed` | filmtag.go:472-476 | This gives the index of the first lens of that name, or the list length when there is none. |
| `Gear.LensLookup` | filmtag.go:467-478 | A fixed-lens camera that has a lens returns that lens whatever the name. Otherwise the lookup succeeds exactly when some compatible lens has the name, and it returns the first such lens. If not, it fails with "lens not found". |
| `Gear.FindLensByName` | filmtag.go:467-478 | The loop with an early return computes exactly `LensLookup`. |
| `Gear.ManualCameraHasNoLens` | filmtag.go:316 | Every lens lookup on a camera entered by hand fails. |
| `Gear.LensLookupAfterAppend` | filmtag.go:372-377 | For any camera, after a lens is appended, lookups that already succeeded are unchanged. A failed lookup of the new lens's name now finds it. |
| `Gear.ManualLensFoundOnManualCamera` | filmtag.go:372-377 | A lens entered by hand for a camera entered by hand is then found by its name. |
| `Gear.FirstFilmMatching` | filmtag.go:481-485 | This gives the index of the first stock with that name and format, or the list length when there is none. |
| `Gear.FilmLookup` | filmtag.go:480-487 | The lookup succeeds exactly when some stock has both the name and the format, and it returns the first such stock in list order. Otherwise it fails with "film not found". |
| `Gear.FilmLookupAfterAppend` | filmtag.go:428-429 | After a stock is appended, lookups that already succeeded are unchanged: an older stock shadows the new one. A failed lookup of the new stock now finds it. |
| `Gear.StocksOfFormat` | filmtag.go:390-395 | The filter keeps only stocks of the given format and never grows the list. Its partner lemmas `Gear.StocksOfFormatMembers` and `Gear.StocksOfFormatConcat` give membership and order. |
| `Gear.StocksOfFormatMembers` | filmtag.go:390-395 | The filtered list holds exactly the stocks of that format. |
| `Gear.StocksOfFormatConcat` | filmtag.go:390-395 | The filter keeps the original order: it distributes over concatenation. |
| `Gear.ManualFilm` | filmtag.go:396 | The sentinel is a stock named "Manual Entry" of the camera's format. `Gear.FilmMenuFor` and `Gear.FilmMenuChoice` prove it is the menu's last entry. |
| `Gear.FilmMenuFor` | filmtag.go:396-397 | The film menu is the stocks of the format, in order, followed by the manual-entry sentinel of that format. It has one entry more than there are stocks of the format. |
| `Gear.FilmMenuChoice` | filmtag.go:412 | Choosing the last menu index means manual entry. Any other index gives a stock from the database, of the camera's format. |
| `Gear.GearDatabase.FindCameraByName` | filmtag.go:460-465 | The lookup succeeds exactly when the name is a key, and it returns the camera stored there unchanged. Otherwise it fails with "camera not found". |
| `Gear.GearDatabase.FindFilmByName` | filmtag.go:480-487 | The loop over the global film list computes exactly `FilmLookup`. |
| `Gear.GearDatabase.FilmMenu` | filmtag.go:385-397 | The filter loop builds exactly `FilmMenuFor`, using the format the camera takes. |
| `Gear.GearDatabase.AddManualCamera` | filmtag.go:316-317 | The camera is stored under "make model", replacing any earlier entry. It has type fixed and no lenses. The film list is unchanged. The new camera is found under that key. |
| `Gear.GearDatabase.AddManualLens` | filmtag.go:372-377 | If the key "Make Model" exists, the lens goes at the end of that camera's lens list. Otherwise the map is unchanged. Other cameras and the film list are never changed. |
| `Gear.GearDatabase.AddManualFilm` | filmtag.go:428-429 | A stock of the camera's format goes at the end of the film list. Earlier stocks and the cameras are unchanged. If no stock had that name and format before, the new one is found. |
| `Gear.GearDatabase.ResolveFlags` | filmtag.go:545-563 | Flag mode looks up the camera, then the lens, then a film of the camera's format. It reports the first failure. A resolved film always has the camera's format. |
| `ExifTool.StripArgs` | filmtag.go:244-253 | The list is the six fixed flags, then the files in their original order. |
| `ExifTool.TagsFor` | filmtag.go:256-263 | The tags are the camera make and model, the lens name, focal length and aperture, the film ISO, and the film name as the user comment. `ExifTool.ApplyArgsRoundTrip` proves the apply list carries exactly these. |
| `ExifTool.TagArgs` | filmtag.go:256-263 | The seven `-tag=value` assignments, one per tag. `ExifTool.ApplyArgsRoundTrip` proves each value is written so that it reads back unchanged. |
| `ExifTool.ApplyArgs` | filmtag.go:255-268 | The list is seven tag assignments and the two control flags, then the files in their original order. |
| `ExifTool.ApplyArgsRoundTrip` | filmtag.go:255-268 | Decoding the apply list gives back exactly the selected camera make and model, the lens name, focal length and aperture, the film ISO and name, and the files. |
| `Decimal.IntToDecimal` | filmtag.go:260-262 | `%d` output is non-empty, starts with '-' exactly for negative numbers, and is otherwise all digits. The partner lemma `Decimal.IntToDecimalRoundTrip` reads it back. |
| `Decimal.IntToDecimalRoundTrip` | filmtag.go:260 | Every integer written with `%d` reads back unchanged. |
| `Decimal.TenthsToDecimal` | filmtag.go:261 | `%.1f` output of an aperture in tenths ends in '.' and one digit. The partner lemma `Decimal.TenthsToDecimalRoundTrip` reads it back. |
| `Decimal.TenthsToDecimalRoundTrip` | filmtag.go:261 | Every aperture in tenths written with `%.1f` reads back unchanged. |
| `Processing.ProcessFiles` | filmtag.go:613-627 | If validation fails, no command is issued. The strip run is always issued first. Apply is issued only after a successful strip. The result is success exactly when both runs were issued and both succeeded. A failed apply gives "apply failed". |
| `Processing.StripDiffersFromApply` | filmtag.go:619-622 | The strip list and the apply list are always different. |

## Left out

- `validateEnvironment` and `executeExifTool` (filmtag.go:192-203, 237-242) run an external program. `exiftool` is an oracle from an argument list to success or failure. It does not depend on anything else, such as the file contents.
- `getGearConfigPath`, `loadGearConfig` and `saveGearConfig` are file-system and YAML I/O, and are not modelled. The callers of `saveGearConfig` ignore its error anyway. `scanDirectory` (`filepath.Walk`) is also left out. The file list arrives as a value, and `os.Stat` is an oracle with three answers.
- The interactive UI is left out: `fuzzyfinder.Find`, the `survey` prompts, the display closures, `confirmConfiguration` and its `filmDisplay` text, the cobra wiring in `main`, and the control flow of `runInteractiveMode`, `runFlagMode` outside its lookups, and `runCleanMode`. The camera menu is left out because Go's map iteration order is not specified. The lens menu is left out because it is UI only.
- `Gear.GearDatabase.AddManualCamera`: always inserts. In the source, a gear file with no `cameras` entry, or with an empty one, leaves the map nil after `yaml.Unmarshal`. Manual camera entry then panics when it writes into that nil map (filmtag.go:317). The model's map has no nil state.
- The progress and completion messages printed by `processFiles` (filmtag.go:618, 625) are output only and are left out.
- `strconv.Atoi` and `strconv.ParseFloat` on manual input are left out. The manual-entry methods take the already-parsed values.
- `MaxAperture` is a `float64` in the source. Here it is a number of tenths, so `%.1f` is exact. Other floating-point values and their rounding are not modelled.
- Go's `int` is 64-bit. The model's integers are unbounded. Nothing in the core does arithmetic on them, and `strconv.Atoi` rejects out-of-range input, so no wrap-around is lost.
- `CameraType` has its three named values only. A YAML file could hold another integer, which the source would treat as neither fixed nor medium format.
- `Paths.Lower`: lower-cases ASCII letters only. No other character lower-cases to '.', 'j', 'p', 'e' or 'g', so `isJPEG` is still exact.
- `Paths.Ext`: stops only at '/', the Unix separator. Windows also stops at '\'. Go strings are bytes; here they are character sequences.
- The default camera and film tables (filmtag.go:129-189) are static data and are not modelled.
