# Universal-link test app: URL assembly and room-id field

This project models the logic of the single screen of the COCOpen universal-link test app
(`UniversalLinkTestApp/ContentView.swift`). The screen lets a developer pick one of three
paths (`/`, `/entrance`, `/room`), type a room id of at most eight characters, and open the
resulting link. Two pieces of that screen carry logic, and both are modelled:

- **The link builder** (`toBeOpenedUrlString`). It starts from the host `https://cocopen.net`
  and appends the raw value of the selected path. On the room path it appends `/` and the room
  id, but only when an id has been entered. `UniversalLinkTestApp.BuildUrl` is this builder as
  a function. The lemmas beside it give the exact URL for each case and prove that the URL
  determines the selection: the path, and the room id on the room path.
- **The room-id field** (`TextField` with its `onChange` handler). An edit that makes the text
  longer than eight characters is undone by restoring the old value. Either way the field is
  then trimmed of leading and trailing whitespace and newlines and lower-cased. Nothing inside
  the text is removed. `UniversalLinkTestApp.RoomIdAfterEdit` is the value the handler leaves
  behind. The class `UniversalLinkTestApp.ContentView` holds the two `@State` fields
  `selectedPath` and `enteredRoomNumber`. Its methods are the handler, one whole edit of the
  field, and the three path buttons. One whole edit and the three buttons require and keep the
  invariant that the field holds a normalized id of at most eight characters. The handler on
  its own always leaves the field normalized, and keeps the length bound when both the old value
  and the field's content were within it.

Module `FoundationText` (`foundation_text.dfy`) stands for the two Foundation string operations
the handler calls: `trimmingCharacters(in: .whitespacesAndNewlines)` and `lowercased()`. The
whitespace set is the Unicode set that `CharacterSet.whitespacesAndNewlines` documents: the
general category Z, U+0009 to U+000D, and U+0085. Trimming is characterised completely. It
returns a contiguous piece of its input with no whitespace at either edge, everything removed
is whitespace, and padding whitespace around a text without edge whitespace gives back exactly
that text. Module `UniversalLinkTestApp` (`content_view.dfy`) holds the rest.

The handler only trims whitespace at the two ends and lower-cases; it removes nothing else.
A room id such as `ab cd!` is therefore kept with its interior space and punctuation
(`EditKeepsInteriorExample`).

## Model

| member | source | states |
|---|---|---|
| UniversalLinkTestApp.RawValue | UniversalLinkTestApp/ContentView.swift:11-15 | every path's raw value starts with `/`, and only the root's is the one character `/` |
| UniversalLinkTestApp.BuildUrl | UniversalLinkTestApp/ContentView.swift:40-53 | the URL always starts with `https://cocopen.net` followed by the path's raw value, and is exactly that prefix if and only if the path is not the room path or the room id is empty; `ContentView.ToBeOpenedUrlString` applies it to the screen's two fields |
| UniversalLinkTestApp.BuildUrlIgnoresRoomIdOffRoom | UniversalLinkTestApp/ContentView.swift:41-45 | off the room path the URL is host + raw value, the same for every room id |
| UniversalLinkTestApp.BuildUrlRoomWithoutId | UniversalLinkTestApp/ContentView.swift:47-49 | room path with an empty id gives exactly `https://cocopen.net/room`, with no trailing segment |
| UniversalLinkTestApp.BuildUrlRoomWithId | UniversalLinkTestApp/ContentView.swift:50-51 | room path with a non-empty id gives `https://cocopen.net/room/` followed by the id |
| UniversalLinkTestApp.BuildUrlFixedPaths | UniversalLinkTestApp/ContentView.swift:40-45 | the root and entrance paths give `https://cocopen.net/` and `https://cocopen.net/entrance` whatever the id |
| UniversalLinkTestApp.BuildUrlInjective | UniversalLinkTestApp/ContentView.swift:40-53 | two selections give the same URL if and only if they have the same path and, on the room path, the same id |
| FoundationText.ToLower | UniversalLinkTestApp/ContentView.swift:69 | lower-casing one character leaves no capital, shifts a capital by 32, fixes everything else and never changes whether the character is whitespace |
| FoundationText.Lowercased | UniversalLinkTestApp/ContentView.swift:69 | `lowercased()` keeps the length, turns each capital into its lower-case letter and keeps every other character in place, so no capital is left and a text free of edge whitespace stays free of it |
| FoundationText.LowercasedOfLowercase | UniversalLinkTestApp/ContentView.swift:69 | lower-casing a text with no capital returns it unchanged |
| FoundationText.LeadingWhitespaceCount | UniversalLinkTestApp/ContentView.swift:69 | the counted front run is all whitespace and is followed by a non-whitespace character or the end |
| FoundationText.TrailingWhitespaceCount | UniversalLinkTestApp/ContentView.swift:69 | the counted back run is all whitespace and is preceded by a non-whitespace character or the start |
| FoundationText.LeadingWhitespaceCountUnique | UniversalLinkTestApp/ContentView.swift:69 | the front whitespace run is the only length with those two properties |
| FoundationText.TrailingWhitespaceCountUnique | UniversalLinkTestApp/ContentView.swift:69 | the back whitespace run is the only length with those two properties |
| FoundationText.Trimmed | UniversalLinkTestApp/ContentView.swift:69 | trimming returns a contiguous piece of the input with no edge whitespace, and everything cut off before and after it is whitespace |
| FoundationText.TrimmedOfPadded | UniversalLinkTestApp/ContentView.swift:69 | trimming whitespace + m + whitespace, where m has no edge whitespace, returns m exactly, interior whitespace included |
| FoundationText.TrimmedOfTrimmed | UniversalLinkTestApp/ContentView.swift:69 | a text without edge whitespace is unchanged by trimming |
| UniversalLinkTestApp.NormalizedRoomId | UniversalLinkTestApp/ContentView.swift:69 | trim-then-lowercase yields a text with no edge whitespace and no capital, never longer than its input |
| UniversalLinkTestApp.NormalizedRoomIdOfNormalized | UniversalLinkTestApp/ContentView.swift:69 | a text already trimmed and lower-case is its own normal form |
| UniversalLinkTestApp.NormalizedRoomIdIdempotent | UniversalLinkTestApp/ContentView.swift:69 | normalizing twice equals normalizing once |
| UniversalLinkTestApp.NormalizedRoomIdKeepsInterior | UniversalLinkTestApp/ContentView.swift:69 | only the whitespace at the two ends is removed; the text between is kept and lower-cased |
| UniversalLinkTestApp.RoomIdAfterEdit | UniversalLinkTestApp/ContentView.swift:65-70 | the field after an edit is normalized, no longer than the accepted value, and within eight characters whenever the old value was |
| UniversalLinkTestApp.EditKeepsInterior | UniversalLinkTestApp/ContentView.swift:66-69 | an edit of at most eight characters yields the lower-cased text between its first and last non-whitespace characters |
| UniversalLinkTestApp.EditTooLongRestoresOld | UniversalLinkTestApp/ContentView.swift:66-69 | an edit longer than eight characters leaves the old (normalized) value in place |
| UniversalLinkTestApp.EditFixedPoint | UniversalLinkTestApp/ContentView.swift:65-70 | a value the field may hold is left unchanged by the handler, whatever the old value |
| UniversalLinkTestApp.EditRetriggerStable | UniversalLinkTestApp/ContentView.swift:65-70 | the second `onChange` fired by the handler's own assignment changes nothing when the old value was within the limit |
| UniversalLinkTestApp.NormalizedRoomIdExample | UniversalLinkTestApp/ContentView.swift:69 | ` AbC12` followed by a newline normalizes to `abc12` |
| UniversalLinkTestApp.LowercasedExample | UniversalLinkTestApp/ContentView.swift:69 | `AbC12` lower-cases to `abc12` |
| UniversalLinkTestApp.EditKeepsInteriorExample | UniversalLinkTestApp/ContentView.swift:66-69 | the edit ` ab cd! ` leaves `ab cd!`: interior space and punctuation are kept |
| UniversalLinkTestApp.EditTooLongExample | UniversalLinkTestApp/ContentView.swift:66-67 | a twenty-character edit of the field holding `abc` leaves `abc` |
| UniversalLinkTestApp.ContentView.constructor | UniversalLinkTestApp/ContentView.swift:30-31 | the screen starts on the root path with an empty room id, and the field invariant holds |
| UniversalLinkTestApp.ContentView.OnRoomNumberChange | UniversalLinkTestApp/ContentView.swift:65-70 | the field becomes the normal form of the old value when the new one is longer than eight characters, else of the field's current content; when that content is the new value, the result is `RoomIdAfterEdit(old, new)`; the field is always normalized, and within eight characters when the old value and the field's content were |
| UniversalLinkTestApp.ContentView.EditRoomNumber | UniversalLinkTestApp/ContentView.swift:64-70 | one edit (binding write, `onChange`, and its re-fire) leaves `RoomIdAfterEdit(previous, typed)`, keeps the field invariant and leaves the path alone |
| UniversalLinkTestApp.ContentView.SelectRoot | UniversalLinkTestApp/ContentView.swift:75-77 | keeps the field invariant; only the path changes, to root; the URL is `https://cocopen.net/` |
| UniversalLinkTestApp.ContentView.SelectEntrance | UniversalLinkTestApp/ContentView.swift:79-81 | keeps the field invariant; only the path changes, to entrance; the URL is `https://cocopen.net/entrance` |
| UniversalLinkTestApp.ContentView.SelectRoom | UniversalLinkTestApp/ContentView.swift:83-85 | keeps the field invariant; only the path changes, to room; the room id kept in the field is carried into the URL again |

## Left out

- `url` (lines 55-57): percent-encoding with `.urlQueryAllowed` and `URL(string:)`, both force-unwrapped, are Foundation behaviour and are not modelled. A room id with interior whitespace reaches this step unencoded in `toBeOpenedUrlString`.
- The SwiftUI `body` layout, the `NavigationStack` and its path, the `OpeningBrowser` picker and its switch, the share-sheet toggle and the `paths` array: these are UI wiring and have no effect on the URL string.
- `UIApplication.shared.open`, `openAppStore` and `debugStatus`: operating-system side effects and logging.
- `ShareSheet` and `SafariView`: UIKit and SafariServices wrappers.
- FoundationText.ToLower: maps only the ASCII capitals A to Z. Swift's `lowercased()` applies full Unicode case mapping, which can also change the length of a string.
- UniversalLinkTestApp.RoomIdAfterEdit: the eight-character limit counts Unicode scalar values. Swift's `count` counts grapheme clusters, so a text with combining marks can pass Swift's check here and fail the model's.
- UniversalLinkTestApp.ContentView.EditRoomNumber: models the one re-fire of `onChange` caused by the handler's own assignment. SwiftUI's scheduling of that re-fire is not modelled. `EditFixedPoint` shows that any further re-fire would change nothing.
