/**
 * Favorite locations: the `latitude,longitude,name` line format, the file
 * of such lines, and the in-memory list the service edits and saves.
 *
 * Python's float printing (`f"{x}"`) and parsing (`float(s)`) are an
 * abstract codec; `Prints` states what the round trips rely on. Whether a
 * save succeeds, and what a read finds, are parameters.
 */
module Favorites {
  import opened Wrappers
  import opened Text
  import Json

  datatype Favorite = Favorite(latitude: real, longitude: real, name: string)

  /** How the source prints a float (`f"{x}"`, the shortest repr) and parses one (`float(s)`). */
  datatype FloatText = FloatText(show: real -> string, parse: string -> Option<real>)

  /**
   * What the round trips need of the float text at one value: it parses
   * back to that value, and its text is nonempty, has no whitespace at its
   * ends and holds no comma and no newline.
   */
  predicate Prints(c: FloatText, x: real)
  {
    var t := c.show(x);
    c.parse(t) == Some(x) && t != "" && IsStripped(t) && ',' !in t && '\n' !in t
  }

  predicate InRange(latitude: real, longitude: real)
  {
    -90.0 <= latitude <= 90.0 && -180.0 <= longitude <= 180.0
  }

  /** `f"{latitude}, {longitude}"`: the name a favorite without one gets. */
  function DefaultName(c: FloatText, latitude: real, longitude: real): string
  {
    c.show(latitude) + ", " + c.show(longitude)
  }

  /** `to_dict`. */
  function ToDict(f: Favorite): (v: Json.Value)
    ensures v.Obj? && Json.Keys(v.fields) == ["latitude", "longitude", "name"]
  {
    Json.Obj([("latitude", Json.Real(f.latitude)), ("longitude", Json.Real(f.longitude)), ("name", Json.Str(f.name))])
  }

  /** The dictionary form holds each field of the favorite under its own key. */
  lemma ToDictFields(f: Favorite)
    ensures Json.Get(ToDict(f).fields, "latitude") == Some(Json.Real(f.latitude))
    ensures Json.Get(ToDict(f).fields, "longitude") == Some(Json.Real(f.longitude))
    ensures Json.Get(ToDict(f).fields, "name") == Some(Json.Str(f.name))
  {
    var d := ToDict(f).fields;
    assert d[0].0 == "latitude" && d[1].0 == "longitude" && d[2].0 == "name";
    Json.GetAt(d, 1);
    Json.GetAt(d, 2);
  }

  /** `to_line`: `latitude,longitude,name`. */
  function ToLine(c: FloatText, f: Favorite): string
  {
    c.show(f.latitude) + "," + c.show(f.longitude) + "," + f.name
  }

  /**
   * `from_line`: the stripped line split on its first two commas; the two
   * coordinates must parse and lie in range; the name is the stripped third
   * field, or the default name when there is none.
   */
  function FromLine(c: FloatText, line: string): Option<Favorite>
  {
    FromStripped(c, Strip(line))
  }

  /** `from_line` after its first `strip()`. */
  function FromStripped(c: FloatText, t: string): Option<Favorite>
  {
    if t == "" then None
    else
      var parts := SplitAtMostTwice(t, ',');
      if |parts| < 2 then None
      else
        match (c.parse(Strip(parts[0])), c.parse(Strip(parts[1])))
        case (Some(latitude), Some(longitude)) =>
          var name := if |parts| > 2 then Strip(parts[2]) else DefaultName(c, latitude, longitude);
          if !InRange(latitude, longitude) then None else Some(Favorite(latitude, longitude, name))
        case _ => None
  }

  /**
   * A line is accepted exactly when it is not blank, has at least two comma
   * fields, and both coordinates parse and lie in range; the favorite holds
   * those coordinates.
   */
  lemma FromLineAccepts(c: FloatText, line: string)
    ensures var parts := SplitAtMostTwice(Strip(line), ',');
      var r := FromLine(c, line);
      r.Some? <==> (Strip(line) != "" && |parts| >= 2
        && c.parse(Strip(parts[0])).Some? && c.parse(Strip(parts[1])).Some?
        && InRange(c.parse(Strip(parts[0])).value, c.parse(Strip(parts[1])).value))
    ensures var parts := SplitAtMostTwice(Strip(line), ',');
      var r := FromLine(c, line);
      r.Some? ==> c.parse(Strip(parts[0])) == Some(r.value.latitude) && c.parse(Strip(parts[1])) == Some(r.value.longitude)
  {
  }

  /**
   * The name of an accepted line: the stripped text after the second comma,
   * commas included, or the default name when the line has one comma only.
   */
  lemma FromLineName(c: FloatText, line: string)
    requires FromLine(c, line).Some?
    ensures var parts := SplitAtMostTwice(Strip(line), ',');
      var f := FromLine(c, line).value;
      f.name == if |parts| == 3 then Strip(parts[2]) else DefaultName(c, f.latitude, f.longitude)
  {
  }

  /**
   * A favorite that survives a save and a load: in range, coordinates the
   * float text prints faithfully, a name with no whitespace at its ends and
   * no newline.
   */
  predicate Storable(c: FloatText, f: Favorite)
  {
    InRange(f.latitude, f.longitude) && Prints(c, f.latitude) && Prints(c, f.longitude)
    && IsStripped(f.name) && '\n' !in f.name
  }

  /** A printed line has no whitespace at its ends and no newline. */
  lemma ToLineShape(c: FloatText, f: Favorite)
    requires Storable(c, f)
    ensures var l := ToLine(c, f); l != "" && IsStripped(l) && '\n' !in l
  {
    var a, b := c.show(f.latitude), c.show(f.longitude);
    var l := ToLine(c, f);
    assert l == a + "," + b + "," + f.name;
    assert l[0] == a[0];
    if f.name == "" {
      assert l[|l| - 1] == ',';
    } else {
      assert l[|l| - 1] == f.name[|f.name| - 1];
    }
  }

  /** Three stripped fields joined by commas, the first two comma-free coordinates in range, read back as a favorite. */
  lemma FromStrippedJoined(c: FloatText, a: string, b: string, name: string, x: real, y: real)
    requires ',' !in a && ',' !in b && IsStripped(a) && IsStripped(b) && IsStripped(name)
    requires c.parse(a) == Some(x) && c.parse(b) == Some(y) && InRange(x, y)
    ensures FromStripped(c, a + [','] + b + [','] + name) == Some(Favorite(x, y, name))
  {
    var t := a + [','] + b + [','] + name;
    assert |t| > 0;
    SplitJoined(a, b, name, ',');
    var parts := SplitAtMostTwice(t, ',');
    assert parts[0] == a && parts[1] == b && parts[2] == name;
    StripIdentity(a);
    StripIdentity(b);
    StripIdentity(name);
    assert c.parse(Strip(parts[0])) == Some(x) && c.parse(Strip(parts[1])) == Some(y);
  }

  /** `from_line(to_line(f)) == f` for a storable favorite; the name may hold commas. */
  lemma LineRoundTrip(c: FloatText, f: Favorite)
    requires Storable(c, f)
    ensures FromLine(c, ToLine(c, f)) == Some(f)
  {
    var a, b := c.show(f.latitude), c.show(f.longitude);
    var l := ToLine(c, f);
    ToLineShape(c, f);
    StripIdentity(l);
    assert l == a + [','] + b + [','] + f.name;
    FromStrippedJoined(c, a, b, f.name, f.latitude, f.longitude);
  }

  // ---------------------------------------------------------------------------
  // The file
  // ---------------------------------------------------------------------------

  /** The lines `for line in f` yields: each with its newline, the last one without when the text does not end in one. */
  function Lines(s: string): (ls: seq<string>)
    decreases |s|
  {
    if s == [] then []
    else match IndexOf(s, '\n')
      case None => [s]
      case Some(i) => [s[..i + 1]] + Lines(s[i + 1..])
  }

  /** Every favorite's line, as `show` prints it, followed by a newline. */
  function Join(show: Favorite -> string, favs: seq<Favorite>): string
  {
    if favs == [] then "" else show(favs[0]) + "\n" + Join(show, favs[1..])
  }

  function LinePrinter(c: FloatText): Favorite -> string
  {
    f => ToLine(c, f)
  }

  /** What `_save` writes: every favorite's `to_line` followed by a newline. */
  function ToFile(c: FloatText, favs: seq<Favorite>): string
  {
    Join(LinePrinter(c), favs)
  }

  /** The favorites of the lines `parse` accepts, in order. */
  function Collect(parse: string -> Option<Favorite>, lines: seq<string>): (favs: seq<Favorite>)
    ensures |favs| <= |lines|
  {
    if lines == [] then []
    else match parse(lines[0])
      case Some(f) => [f] + Collect(parse, lines[1..])
      case None => Collect(parse, lines[1..])
  }

  /** Collecting appends what later lines give after what earlier ones give. */
  lemma {:induction false} CollectAppend(parse: string -> Option<Favorite>, xs: seq<string>, ys: seq<string>)
    ensures Collect(parse, xs + ys) == Collect(parse, xs) + Collect(parse, ys)
    decreases |xs|
  {
    if xs != [] {
      assert (xs + ys)[1..] == xs[1..] + ys;
      CollectAppend(parse, xs[1..], ys);
    } else {
      assert xs + ys == ys;
    }
  }

  /** A first line that `parse` accepts puts its favorite first. */
  lemma CollectCons(parse: string -> Option<Favorite>, line: string, lines: seq<string>)
    requires parse(line).Some?
    ensures Collect(parse, [line] + lines) == [parse(line).value] + Collect(parse, lines)
  {
    assert ([line] + lines)[1..] == lines;
  }

  /** One more line adds its favorite, if it has one. */
  lemma CollectSnoc(parse: string -> Option<Favorite>, lines: seq<string>, i: nat)
    requires i < |lines|
    ensures Collect(parse, lines[..i + 1]) == Collect(parse, lines[..i]) + (if parse(lines[i]).Some? then [parse(lines[i]).value] else [])
  {
    CollectAppend(parse, lines[..i], [lines[i]]);
    assert [lines[i]][1..] == [];
    assert lines[..i + 1] == lines[..i] + [lines[i]];
  }

  function LineParser(c: FloatText): string -> Option<Favorite>
  {
    l => FromLine(c, l)
  }

  /** The favorites of the valid lines, in order. */
  function ParseAll(c: FloatText, lines: seq<string>): seq<Favorite>
  {
    Collect(LineParser(c), lines)
  }

  /** A line and its newline as the next line of a text. */
  lemma LinesCons(l: string, rest: string)
    requires '\n' !in l
    ensures Lines(l + "\n" + rest) == [l + "\n"] + Lines(rest)
  {
    var s := l + "\n" + rest;
    assert s == l + ['\n'] + rest;
    IndexOfAfter(l, rest, '\n');
    assert s[..|l| + 1] == l + "\n";
    assert s[|l| + 1..] == rest;
  }

  /** The newline `for line in f` leaves on a line is stripped away. */
  lemma StripNewline(l: string)
    requires l != "" && IsStripped(l)
    ensures Strip(l + "\n") == l
  {
    var s := l + "\n";
    assert s[0] == l[0];
    assert StripLeft(s) == s;
    assert s[..|s| - 1] == l;
    assert StripRight(l) == l;
  }

  /** A saved line has no newline in it, and read back with its newline it gives the favorite it was made from. */
  lemma SavedLineRoundTrip(c: FloatText, f: Favorite)
    requires Storable(c, f)
    ensures '\n' !in ToLine(c, f) && FromLine(c, ToLine(c, f) + "\n") == Some(f)
  {
    ToLineShape(c, f);
    StripNewline(ToLine(c, f));
    LineRoundTrip(c, f);
    StripIdentity(ToLine(c, f));
  }

  /** Reading a text whose first line `parse` accepts gives that line's favorite before those of the rest. */
  lemma CollectFirstLine(parse: string -> Option<Favorite>, l: string, f: Favorite, rest: string)
    requires '\n' !in l && parse(l + "\n") == Some(f)
    ensures Collect(parse, Lines(l + "\n" + rest)) == [f] + Collect(parse, Lines(rest))
  {
    LinesCons(l, rest);
    CollectCons(parse, l + "\n", Lines(rest));
  }

  /** Reading the joined lines of favorites that `parse` reads back from their printed line gives those favorites. */
  lemma {:induction false} CollectJoined(parse: string -> Option<Favorite>, show: Favorite -> string, favs: seq<Favorite>)
    requires forall i :: 0 <= i < |favs| ==> '\n' !in show(favs[i]) && parse(show(favs[i]) + "\n") == Some(favs[i])
    ensures Collect(parse, Lines(Join(show, favs))) == favs
    decreases |favs|
  {
    if favs != [] {
      CollectFirstLine(parse, show(favs[0]), favs[0], Join(show, favs[1..]));
      CollectJoined(parse, show, favs[1..]);
    }
  }

  /** Loading what a save wrote gives back the saved favorites, in order. */
  lemma FileRoundTrip(c: FloatText, favs: seq<Favorite>)
    requires forall i :: 0 <= i < |favs| ==> Storable(c, favs[i])
    ensures ParseAll(c, Lines(ToFile(c, favs))) == favs
  {
    forall i | 0 <= i < |favs|
      ensures '\n' !in LinePrinter(c)(favs[i]) && LineParser(c)(LinePrinter(c)(favs[i]) + "\n") == Some(favs[i])
    {
      SavedLineRoundTrip(c, favs[i]);
    }
    CollectJoined(LineParser(c), LinePrinter(c), favs);
  }

  /** The appending loop of `_load` and `import_from_file`: every valid line of the text, in file order. */
  method ReadFavorites(c: FloatText, text: string) returns (favs: seq<Favorite>)
    ensures favs == ParseAll(c, Lines(text))
  {
    favs := CollectLines(LineParser(c), Lines(text));
  }

  /** The loop itself, for any line reader: `parse` each line and keep what it accepts. */
  method CollectLines(parse: string -> Option<Favorite>, lines: seq<string>) returns (favs: seq<Favorite>)
    ensures favs == Collect(parse, lines)
  {
    favs := [];
    var i := 0;
    while i < |lines|
      invariant 0 <= i <= |lines|
      invariant favs == Collect(parse, lines[..i])
      decreases |lines| - i
    {
      var fav := parse(lines[i]);
      CollectSnoc(parse, lines, i);
      if fav.Some? {
        favs := favs + [fav.value];
      }
      i := i + 1;
    }
    assert lines[..i] == lines;
  }

  // ---------------------------------------------------------------------------
  // The service
  // ---------------------------------------------------------------------------

  /** What an attempt to read a file finds. */
  datatype FileRead = NotFound | ReadError(message: string) | Read(text: string)

  /** The answers of the editing calls. */
  datatype Reply =
    | Saved(favorite: Favorite)
    | Removed
    | Imported(count: nat)
    | Refused(error: string)

  const SaveFailed := "Failed to save favorites file"

  class FavoritesService {
    const codec: FloatText
    var favorites: seq<Favorite>

    /** `__init__` and `_load`: the valid lines of the file when it could be read, and nothing otherwise. */
    constructor (codec: FloatText, file: Option<string>)
      ensures this.codec == codec
      ensures favorites == if file.Some? then ParseAll(codec, Lines(file.value)) else []
    {
      this.codec := codec;
      favorites := [];
      new;
      Load(file);
    }

    /** `_load` (and `reload`): the list becomes the file's valid lines, or empty when the file cannot be read. */
    method Load(file: Option<string>)
      modifies this
      ensures favorites == if file.Some? then ParseAll(codec, Lines(file.value)) else []
    {
      favorites := [];
      if file.Some? {
        favorites := ReadFavorites(codec, file.value);
      }
    }

    /** `get_all`: a copy of the list. */
    function GetAll(): seq<Favorite>
      reads this
    {
      favorites
    }

    /**
     * `add`: rejects coordinates out of range; an empty name becomes the
     * default name, any other is stripped; the favorite is appended, and
     * taken back off when the save fails.
     */
    method Add(latitude: real, longitude: real, name: string, saveOk: bool) returns (r: Reply)
      modifies this
      ensures !(-90.0 <= latitude <= 90.0) ==> r == Refused("Invalid latitude (must be -90 to 90)") && favorites == old(favorites)
      ensures -90.0 <= latitude <= 90.0 && !(-180.0 <= longitude <= 180.0) ==>
        r == Refused("Invalid longitude (must be -180 to 180)") && favorites == old(favorites)
      ensures InRange(latitude, longitude) && !saveOk ==> r == Refused(SaveFailed) && favorites == old(favorites)
      ensures InRange(latitude, longitude) && saveOk ==>
        var f := Favorite(latitude, longitude, if name == "" then DefaultName(codec, latitude, longitude) else Strip(name));
        r == Saved(f) && favorites == old(favorites) + [f]
    {
      if !(-90.0 <= latitude <= 90.0) {
        return Refused("Invalid latitude (must be -90 to 90)");
      }
      if !(-180.0 <= longitude <= 180.0) {
        return Refused("Invalid longitude (must be -180 to 180)");
      }
      var n := if name == "" then DefaultName(codec, latitude, longitude) else Strip(name);
      var f := Favorite(latitude, longitude, n);
      favorites := favorites + [f];
      if saveOk {
        return Saved(f);
      }
      favorites := favorites[..|favorites| - 1];
      return Refused(SaveFailed);
    }

    /**
     * `update`: rejects an index outside the list and a name that strips to
     * nothing; renames the favorite at the index to the stripped name, and
     * renames it back when the save fails.
     */
    method Update(index: int, name: string, saveOk: bool) returns (r: Reply)
      modifies this
      ensures !(0 <= index < |old(favorites)|) ==> r == Refused("Invalid index: " + IntToString(index)) && favorites == old(favorites)
      ensures 0 <= index < |old(favorites)| && Strip(name) == "" ==> r == Refused("Name cannot be empty") && favorites == old(favorites)
      ensures 0 <= index < |old(favorites)| && Strip(name) != "" && !saveOk ==> r == Refused(SaveFailed) && favorites == old(favorites)
      ensures 0 <= index < |old(favorites)| && Strip(name) != "" && saveOk ==>
        var f := old(favorites)[index].(name := Strip(name));
        r == Saved(f) && favorites == old(favorites)[index := f]
    {
      if index < 0 || index >= |favorites| {
        return Refused("Invalid index: " + IntToString(index));
      }
      var n := Strip(name);
      if n == "" {
        return Refused("Name cannot be empty");
      }
      var oldName := favorites[index].name;
      favorites := favorites[index := favorites[index].(name := n)];
      if saveOk {
        return Saved(favorites[index]);
      }
      favorites := favorites[index := favorites[index].(name := oldName)];
      return Refused(SaveFailed);
    }

    /**
     * `delete`: rejects an index outside the list; removes exactly the
     * favorite at the index, keeping the order of the rest, and puts it back
     * in its place when the save fails.
     */
    method Delete(index: int, saveOk: bool) returns (r: Reply)
      modifies this
      ensures !(0 <= index < |old(favorites)|) ==> r == Refused("Invalid index: " + IntToString(index)) && favorites == old(favorites)
      ensures 0 <= index < |old(favorites)| && !saveOk ==> r == Refused(SaveFailed) && favorites == old(favorites)
      ensures 0 <= index < |old(favorites)| && saveOk ==>
        r == Removed && favorites == old(favorites)[..index] + old(favorites)[index + 1..]
    {
      if index < 0 || index >= |favorites| {
        return Refused("Invalid index: " + IntToString(index));
      }
      var removed := favorites[index];
      favorites := favorites[..index] + favorites[index + 1..];
      if saveOk {
        return Removed;
      }
      favorites := favorites[..index] + [removed] + favorites[index..];
      assert favorites == old(favorites);
      return Refused(SaveFailed);
    }

    /**
     * `import_from_file`: fails when the file is missing or unreadable, or
     * holds no valid line; otherwise appends its valid lines in file order,
     * and takes them back off when the save fails.
     */
    method ImportFromFile(path: string, file: FileRead, saveOk: bool) returns (r: Reply)
      modifies this
      ensures file.NotFound? ==> r == Refused("File not found: " + path) && favorites == old(favorites)
      ensures file.ReadError? ==> r == Refused("Failed to read file: " + file.message) && favorites == old(favorites)
      ensures file.Read? ==>
        var imported := ParseAll(codec, Lines(file.text));
        if imported == [] then r == Refused("No valid favorites found in file") && favorites == old(favorites)
        else if !saveOk then r == Refused(SaveFailed) && favorites == old(favorites)
        else r == Imported(|imported|) && favorites == old(favorites) + imported
    {
      if file.NotFound? {
        return Refused("File not found: " + path);
      }
      if file.ReadError? {
        return Refused("Failed to read file: " + file.message);
      }
      var imported := ReadFavorites(codec, file.text);
      if imported == [] {
        return Refused("No valid favorites found in file");
      }
      favorites := favorites + imported;
      if saveOk {
        return Imported(|imported|);
      }
      PopLast(|imported|);
      assert favorites == old(favorites);
      return Refused(SaveFailed);
    }

    /** `n` calls of `pop()`: the last `n` favorites come off the end. */
    method PopLast(n: nat)
      requires n <= |favorites|
      modifies this
      ensures favorites == old(favorites)[..|old(favorites)| - n]
    {
      var k := 0;
      while k < n
        invariant 0 <= k <= n
        invariant favorites == old(favorites)[..|old(favorites)| - k]
        decreases n - k
      {
        favorites := favorites[..|favorites| - 1];
        k := k + 1;
      }
    }
  }
}
