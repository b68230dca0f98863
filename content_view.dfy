/** The logic of the test app's single screen: the link it opens is assembled from a
    fixed host, the selected path and, on the room path, the room id typed by the user;
    the room-id text field rejects edits longer than eight characters and keeps its
    content trimmed and lower-cased. */
module UniversalLinkTestApp {
  import opened FoundationText

  /** The three paths the app can open. */
  datatype Path = Root | Entrance | Room

  /** The enum's raw string: every path starts with `/`, and only the root path is `/` alone. */
  function RawValue(path: Path): (s: string)
    ensures |s| >= 1 && s[0] == '/'
    ensures path == Root <==> |s| == 1
  {
    match path
    case Root => "/"
    case Entrance => "/entrance"
    case Room => "/room"
  }

  /** The universal-link host every opened URL starts with. */
  const BaseUrlString: string := "https://cocopen.net"

  /** The longest room id the text field accepts. */
  const MaxRoomIdLength: nat := 8

  /** `toBeOpenedUrlString`: the host, then the selected path, then `"/" + roomId` only
      on the room path and only when a room id has been entered. The result always starts
      with the host and the path, and is exactly that prefix unless a room id is appended. */
  function BuildUrl(path: Path, roomId: string): (r: string)
    ensures |BaseUrlString + RawValue(path)| <= |r|
    ensures r[..|BaseUrlString + RawValue(path)|] == BaseUrlString + RawValue(path)
    ensures r == BaseUrlString + RawValue(path) <==> (path != Room || roomId == [])
  {
    var result := BaseUrlString + RawValue(path);
    if path != Room then
      result
    else if roomId == [] then
      result
    else
      result + ("/" + roomId)
  }

  /** The room id the URL carries: the entered id on the room path, nothing elsewhere. */
  function RoomIdInUrl(path: Path, roomId: string): string {
    if path == Room then roomId else []
  }

  /** Off the room path the room id is ignored, whatever it is. */
  lemma BuildUrlIgnoresRoomIdOffRoom(path: Path, roomId: string, otherRoomId: string)
    requires path != Room
    ensures BuildUrl(path, roomId) == BaseUrlString + RawValue(path)
    ensures BuildUrl(path, roomId) == BuildUrl(path, otherRoomId)
  {
  }

  /** On the room path with no id the URL ends at `/room`, with no trailing segment. */
  lemma BuildUrlRoomWithoutId()
    ensures BuildUrl(Room, []) == "https://cocopen.net/room"
  {
  }

  /** On the room path with an id the URL is `/room/` followed by the id. */
  lemma BuildUrlRoomWithId(roomId: string)
    requires roomId != []
    ensures BuildUrl(Room, roomId) == "https://cocopen.net/room/" + roomId
  {
  }

  /** The other two paths give fixed URLs. */
  lemma BuildUrlFixedPaths(roomId: string)
    ensures BuildUrl(Root, roomId) == "https://cocopen.net/"
    ensures BuildUrl(Entrance, roomId) == "https://cocopen.net/entrance"
  {
  }

  /** Two selections give the same URL exactly when they choose the same path and
      carry the same room id, so the URL shown on screen identifies the selection. */
  lemma BuildUrlInjective(path1: Path, roomId1: string, path2: Path, roomId2: string)
    ensures BuildUrl(path1, roomId1) == BuildUrl(path2, roomId2)
            <==> path1 == path2 && RoomIdInUrl(path1, roomId1) == RoomIdInUrl(path2, roomId2)
  {
    var r1, r2 := BuildUrl(path1, roomId1), BuildUrl(path2, roomId2);
    if path1 != path2 {
      // Only the root path gives a URL that ends right after the host's "/";
      // the other two differ in the character after it.
      var n := |BaseUrlString|;
      if path1 == Root || path2 == Root {
        assert |r1| != |r2|;
      } else {
        assert r1[n + 1] == RawValue(path1)[1];
        assert r2[n + 1] == RawValue(path2)[1];
        assert r1[n + 1] != r2[n + 1];
      }
    } else if path1 == Room {
      var prefix := BaseUrlString + "/room";
      if roomId1 != [] && roomId2 != [] {
        assert r1 == prefix + ("/" + roomId1) && r2 == prefix + ("/" + roomId2);
        if r1 == r2 {
          assert roomId1 == r1[|prefix| + 1..];
          assert roomId2 == r2[|prefix| + 1..];
        }
      } else if roomId1 != [] || roomId2 != [] {
        assert |r1| != |r2|;
      }
    }
  }

  /** Trimmed of whitespace and newlines, then lower-cased: the form the room-id
      field is kept in. */
  predicate IsNormalizedRoomId(s: string) {
    HasNoEdgeWhitespace(s) && IsLowercase(s)
  }

  /** `s.trimmingCharacters(in: .whitespacesAndNewlines).lowercased()`. */
  function NormalizedRoomId(s: string): (r: string)
    ensures IsNormalizedRoomId(r)
    ensures |r| <= |s|
  {
    Lowercased(Trimmed(s))
  }

  /** A value already in normal form is its own normal form. */
  lemma NormalizedRoomIdOfNormalized(s: string)
    requires IsNormalizedRoomId(s)
    ensures NormalizedRoomId(s) == s
  {
    TrimmedOfTrimmed(s);
    LowercasedOfLowercase(s);
  }

  /** Normalizing twice is normalizing once. */
  lemma NormalizedRoomIdIdempotent(s: string)
    ensures NormalizedRoomId(NormalizedRoomId(s)) == NormalizedRoomId(s)
  {
    NormalizedRoomIdOfNormalized(NormalizedRoomId(s));
  }

  /** Only whitespace at the two ends is removed: whatever lies between the first and
      the last non-whitespace character is kept, interior whitespace included, and only
      lower-cased. */
  lemma NormalizedRoomIdKeepsInterior(p: string, m: string, q: string)
    requires AllWhitespace(p) && AllWhitespace(q) && HasNoEdgeWhitespace(m)
    ensures NormalizedRoomId(p + m + q) == Lowercased(m)
  {
    TrimmedOfPadded(p, m, q);
  }

  /** The room-id field after the `onChange` handler has seen the edit
      `oldValue` to `newValue`: an edit longer than the limit is undone, and the value
      kept is normalized. The result is always normalized, never longer than the value
      it came from, and so within the limit whenever the old value was. */
  function RoomIdAfterEdit(oldValue: string, newValue: string): (r: string)
    ensures IsNormalizedRoomId(r)
    ensures |newValue| <= MaxRoomIdLength ==> |r| <= |newValue|
    ensures |newValue| > MaxRoomIdLength ==> |r| <= |oldValue|
    ensures |oldValue| <= MaxRoomIdLength ==> |r| <= MaxRoomIdLength
  {
    NormalizedRoomId(if |newValue| > MaxRoomIdLength then oldValue else newValue)
  }

  /** An accepted edit keeps everything between the first and the last non-whitespace
      character the user typed. */
  lemma EditKeepsInterior(oldValue: string, p: string, m: string, q: string)
    requires AllWhitespace(p) && AllWhitespace(q) && HasNoEdgeWhitespace(m)
    requires |p + m + q| <= MaxRoomIdLength
    ensures RoomIdAfterEdit(oldValue, p + m + q) == Lowercased(m)
  {
    NormalizedRoomIdKeepsInterior(p, m, q);
  }

  /** An over-long edit restores the old value, which the field already held in normal form. */
  lemma EditTooLongRestoresOld(oldValue: string, newValue: string)
    requires IsNormalizedRoomId(oldValue)
    requires |newValue| > MaxRoomIdLength
    ensures RoomIdAfterEdit(oldValue, newValue) == oldValue
  {
    NormalizedRoomIdOfNormalized(oldValue);
  }

  /** A value the field may hold is a fixed point of the handler: whatever the old value,
      an edit to it leaves it unchanged. */
  lemma EditFixedPoint(oldValue: string, value: string)
    requires IsNormalizedRoomId(value) && |value| <= MaxRoomIdLength
    ensures RoomIdAfterEdit(oldValue, value) == value
  {
    NormalizedRoomIdOfNormalized(value);
  }

  /** The handler's own assignment fires `onChange` once more, from the typed value to the
      handler's result; when the field held at most eight characters before the edit,
      that second run changes nothing. */
  lemma EditRetriggerStable(previous: string, typed: string)
    requires |previous| <= MaxRoomIdLength
    ensures RoomIdAfterEdit(typed, RoomIdAfterEdit(previous, typed)) == RoomIdAfterEdit(previous, typed)
  {
    EditFixedPoint(typed, RoomIdAfterEdit(previous, typed));
  }

  /** Worked case: upper case and edge whitespace are removed. */
  lemma NormalizedRoomIdExample()
    ensures NormalizedRoomId(" AbC12\n") == "abc12"
  {
    var m := "AbC12";
    assert AllWhitespace(" ") && AllWhitespace("\n") && HasNoEdgeWhitespace(m);
    assert " " + m + "\n" == " AbC12\n";
    NormalizedRoomIdKeepsInterior(" ", m, "\n");
    LowercasedExample();
  }

  /** Lower-casing maps the ASCII capitals and leaves digits and lower-case letters alone. */
  lemma LowercasedExample()
    ensures Lowercased("AbC12") == "abc12"
  {
    var lower := Lowercased("AbC12");
    assert lower[0] == 'a' && lower[1] == 'b' && lower[2] == 'c' && lower[3] == '1' && lower[4] == '2';
  }

  /** Worked case: interior whitespace and punctuation survive an accepted edit. */
  lemma EditKeepsInteriorExample()
    ensures RoomIdAfterEdit("", " ab cd! ") == "ab cd!"
  {
    var m := "ab cd!";
    assert AllWhitespace(" ") && HasNoEdgeWhitespace(m) && IsLowercase(m);
    assert " " + m + " " == " ab cd! ";
    EditKeepsInterior("", " ", m, " ");
    LowercasedOfLowercase(m);
  }

  /** Worked case: an edit of twenty characters is undone. */
  lemma EditTooLongExample()
    ensures RoomIdAfterEdit("abc", "ab cd!#12345678extra") == "abc"
  {
    EditTooLongRestoresOld("abc", "ab cd!#12345678extra");
  }

  /** The screen's state: the selected path and the room-id text field. */
  class ContentView {
    var selectedPath: Path
    var enteredRoomNumber: string

    /** What every handler keeps: the field holds a normalized id of at most eight characters. */
    ghost predicate Valid()
      reads this
    {
      |enteredRoomNumber| <= MaxRoomIdLength && IsNormalizedRoomId(enteredRoomNumber)
    }

    constructor ()
      ensures Valid()
      ensures selectedPath == Root && enteredRoomNumber == []
    {
      selectedPath := Root;
      enteredRoomNumber := [];
    }

    /** `toBeOpenedUrlString`, read from the current state. */
    function ToBeOpenedUrlString(): string
      reads this
    {
      BuildUrl(selectedPath, enteredRoomNumber)
    }

    /** The `onChange(of: enteredRoomNumber)` handler. It runs after the text field's binding
        has already stored `newValue`: an over-long value is replaced by `oldValue`, and then
        whatever the field holds is trimmed and lower-cased. */
    method OnRoomNumberChange(oldValue: string, newValue: string)
      modifies this`enteredRoomNumber
      ensures enteredRoomNumber
              == NormalizedRoomId(if |newValue| > MaxRoomIdLength then oldValue else old(enteredRoomNumber))
      ensures old(enteredRoomNumber) == newValue ==> enteredRoomNumber == RoomIdAfterEdit(oldValue, newValue)
      ensures IsNormalizedRoomId(enteredRoomNumber)
      ensures |oldValue| <= MaxRoomIdLength && |old(enteredRoomNumber)| <= MaxRoomIdLength ==> Valid()
    {
      if |newValue| > MaxRoomIdLength {
        enteredRoomNumber := oldValue;
      }
      enteredRoomNumber := NormalizedRoomId(enteredRoomNumber);
    }

    /** One edit of the text field: the binding stores what was typed, `onChange` fires
        with the previous and the typed value, and, when the handler changed the field,
        fires once more for that change. The field ends as `RoomIdAfterEdit` says and
        stays within the limit; the selected path is untouched. */
    method EditRoomNumber(typed: string)
      requires Valid()
      modifies this`enteredRoomNumber
      ensures Valid()
      ensures enteredRoomNumber == RoomIdAfterEdit(old(enteredRoomNumber), typed)
      ensures selectedPath == old(selectedPath)
    {
      var previous := enteredRoomNumber;
      enteredRoomNumber := typed;
      OnRoomNumberChange(previous, typed);
      assert enteredRoomNumber == RoomIdAfterEdit(previous, typed);
      if enteredRoomNumber != typed {
        var handled := enteredRoomNumber;
        assert |handled| <= MaxRoomIdLength && IsNormalizedRoomId(handled);
        OnRoomNumberChange(typed, handled);
        // The handler's result is within the limit, so the second run only normalizes it again.
        NormalizedRoomIdOfNormalized(handled);
      }
    }

    /** The "root" button: only the path changes, so the URL is the bare host with `/`. */
    method SelectRoot()
      requires Valid()
      modifies this`selectedPath
      ensures Valid()
      ensures selectedPath == Root
      ensures enteredRoomNumber == old(enteredRoomNumber)
      ensures ToBeOpenedUrlString() == "https://cocopen.net/"
    {
      selectedPath := Root;
    }

    /** The "entrance" button: only the path changes. */
    method SelectEntrance()
      requires Valid()
      modifies this`selectedPath
      ensures Valid()
      ensures selectedPath == Entrance
      ensures enteredRoomNumber == old(enteredRoomNumber)
      ensures ToBeOpenedUrlString() == "https://cocopen.net/entrance"
    {
      selectedPath := Entrance;
    }

    /** The "room" button: only the path changes, so an id entered earlier, even while
        another path was selected, is carried into the URL again. */
    method SelectRoom()
      requires Valid()
      modifies this`selectedPath
      ensures Valid()
      ensures selectedPath == Room
      ensures enteredRoomNumber == old(enteredRoomNumber)
      ensures enteredRoomNumber == [] ==> ToBeOpenedUrlString() == "https://cocopen.net/room"
      ensures enteredRoomNumber != [] ==> ToBeOpenedUrlString() == "https://cocopen.net/room/" + enteredRoomNumber
    {
      selectedPath := Room;
    }
  }
}
