/** `findConfigPin`: walk from the module's directory towards the root,
    reading `config.json` in each directory, and return the first truthy
    `bridge.pin`. Paths are sequences of segments (the root `/` is the empty
    sequence) and the filesystem is an oracle from directory to what its
    `config.json` holds. */
module FindConfigPin {
  import opened Json

  type Path = seq<string>

  /** `config.json` in a directory: missing (absent from the oracle), not
      readable or not JSON (`readFileSync` or `JSON.parse` throws), or parsed. */
  datatype ConfigFile = Unreadable | Parsed(config: Value)

  type FileSystem = map<Path, ConfigFile>

  /** What examining one directory yields. */
  datatype Probe = NoPin | Pin(pin: Value) | Throws

  /** The result: a pin, `null`, or the exception that escapes. */
  datatype Outcome = Found(pin: Value) | NotFound | Failed(at: Path)

  /** `path.dirname`. */
  function Parent(dir: Path): (p: Path)
    requires dir != []
    ensures |p| == |dir| - 1 && p == dir[..|dir| - 1]
  {
    dir[..|dir| - 1]
  }

  /** `config.bridge && config.bridge.pin`, read from one directory. A
      `null` config throws on `.bridge`; a truthy `bridge` that is not an
      object has no `pin`. */
  function Examine(dir: Path, fs: FileSystem): (p: Probe)
    ensures p.Throws? <==> dir in fs && (fs[dir].Unreadable? || fs[dir].config.JNull?)
    ensures p.Pin? <==>
              && dir in fs && fs[dir].Parsed? && fs[dir].config.JObject?
              && "bridge" in fs[dir].config.fields && fs[dir].config.fields["bridge"].JObject?
              && "pin" in fs[dir].config.fields["bridge"].fields
              && Truthy(fs[dir].config.fields["bridge"].fields["pin"])
    ensures p.Pin? ==> p.pin == fs[dir].config.fields["bridge"].fields["pin"]
  {
    if dir !in fs then NoPin
    else
      match fs[dir]
      case Unreadable => Throws
      case Parsed(config) =>
        if config.JNull? then Throws
        else if config.JObject? && "bridge" in config.fields && Truthy(config.fields["bridge"]) then
          var bridge := config.fields["bridge"];
          if bridge.JObject? && "pin" in bridge.fields && Truthy(bridge.fields["pin"])
          then Pin(bridge.fields["pin"])
          else NoPin
        else NoPin
  }

  /** The search from `dir` upwards, stopping before the root. */
  function Search(dir: Path, fs: FileSystem): (r: Outcome)
    decreases |dir|
  {
    if dir == [] then NotFound
    else
      match Examine(dir, fs)
      case Pin(p) => Found(p)
      case Throws => Failed(dir)
      case NoPin => Search(Parent(dir), fs)
  }

  /** The directories examined, in order, before the search stops. */
  function Visited(dir: Path, fs: FileSystem): (dirs: seq<Path>)
    decreases |dir|
  {
    if dir == [] then []
    else [dir] + (if Examine(dir, fs) == NoPin then Visited(Parent(dir), fs) else [])
  }

  /** The loop of `findConfigPin`, from the module's directory `start`. */
  method FindConfigPin(start: Path, fs: FileSystem) returns (r: Outcome, ghost visited: seq<Path>)
    ensures r == Search(start, fs)
    ensures visited == Visited(start, fs)
  {
    var currentDir := start;
    visited := [];
    while currentDir != []
      invariant Search(currentDir, fs) == Search(start, fs)
      invariant visited + Visited(currentDir, fs) == Visited(start, fs)
      decreases |currentDir|
    {
      var probe := Examine(currentDir, fs);
      VisitedStep(visited, currentDir, fs);
      visited := visited + [currentDir];
      if probe.Pin? {
        return Found(probe.pin), visited;
      } else if probe.Throws? {
        return Failed(currentDir), visited;
      }
      currentDir := Parent(currentDir);
    }
    assert visited + [] == visited;
    r := NotFound;
  }

  lemma VisitedStep(visited: seq<Path>, dir: Path, fs: FileSystem)
    requires dir != []
    ensures Examine(dir, fs) != NoPin ==> visited + Visited(dir, fs) == visited + [dir]
    ensures Examine(dir, fs) == NoPin ==>
              visited + Visited(dir, fs) == (visited + [dir]) + Visited(Parent(dir), fs)
  {
  }

  /** The search looks at `start` first, then at each parent in turn, and
      never at the root; each step shortens the path, so it ends. */
  lemma {:induction false} VisitOrder(start: Path, fs: FileSystem)
    ensures |Visited(start, fs)| <= |start|
    ensures forall i | 0 <= i < |Visited(start, fs)| :: Visited(start, fs)[i] == start[..|start| - i]
    ensures [] !in Visited(start, fs)
    decreases |start|
  {
    if start != [] && Examine(start, fs) == NoPin {
      var parent := Parent(start);
      VisitOrder(parent, fs);
      var v := Visited(start, fs);
      assert v == [start] + Visited(parent, fs);
      forall i | 1 <= i < |v| ensures v[i] == start[..|start| - i] {
        assert v[i] == Visited(parent, fs)[i - 1];
      }
    }
  }

  /** No directory nearer than `k` segments from the root (other than those
      of length up to `k`) yields anything but `NoPin`. */
  ghost predicate ClearAbove(start: Path, fs: FileSystem, k: nat) {
    forall j | k < j <= |start| :: Examine(start[..j], fs) == NoPin
  }

  /** Directories that yield `NoPin` are skipped: the search from `start`
      ends as the search from the first directory that does not. */
  lemma {:induction false} SkipClear(start: Path, fs: FileSystem, k: nat)
    requires k <= |start| && ClearAbove(start, fs, k)
    ensures Search(start, fs) == Search(start[..k], fs)
    decreases |start| - k
  {
    if k < |start| {
      var parent := Parent(start);
      assert start[..|start|] == start;
      assert Examine(start, fs) == NoPin;
      assert ClearAbove(parent, fs, k) by {
        forall j | k < j <= |parent| ensures Examine(parent[..j], fs) == NoPin {
          assert parent[..j] == start[..j];
        }
      }
      SkipClear(parent, fs, k);
      assert parent[..k] == start[..k];
    } else {
      assert start[..k] == start;
    }
  }

  /** `null` is returned exactly when no directory on the way up yields a
      pin or throws. */
  lemma NotFoundIff(start: Path, fs: FileSystem)
    ensures Search(start, fs) == NotFound <==> ClearAbove(start, fs, 0)
  {
    if ClearAbove(start, fs, 0) {
      SkipClear(start, fs, 0);
    } else {
      var j :| 0 < j <= |start| && Examine(start[..j], fs) != NoPin;
      NotClearNotFound(start, fs, j);
    }
  }

  lemma {:induction false} NotClearNotFound(start: Path, fs: FileSystem, j: nat)
    requires 0 < j <= |start| && Examine(start[..j], fs) != NoPin
    ensures Search(start, fs) != NotFound
    decreases |start|
  {
    if j == |start| {
      assert start[..j] == start;
    } else if Examine(start, fs) == NoPin {
      assert Parent(start)[..j] == start[..j];
      NotClearNotFound(Parent(start), fs, j);
    }
  }

  /** The pin returned is the nearest one: the directory `k` segments deep
      holds it, and every deeper directory on the way yields `NoPin`.
      Conversely, such a directory determines the result. */
  lemma {:induction false} NearestPin(start: Path, fs: FileSystem, p: Value)
    ensures Search(start, fs) == Found(p) ==>
              exists k | 0 < k <= |start| :: Examine(start[..k], fs) == Pin(p) && ClearAbove(start, fs, k)
    ensures forall k | 0 < k <= |start| && Examine(start[..k], fs) == Pin(p) && ClearAbove(start, fs, k) ::
              Search(start, fs) == Found(p)
    decreases |start|
  {
    forall k | 0 < k <= |start| && Examine(start[..k], fs) == Pin(p) && ClearAbove(start, fs, k)
      ensures Search(start, fs) == Found(p)
    {
      SkipClear(start, fs, k);
    }
    if start != [] && Search(start, fs) == Found(p) {
      assert start[..|start|] == start;
      if Examine(start, fs) == NoPin {
        var parent := Parent(start);
        NearestPin(parent, fs, p);
        var k :| 0 < k <= |parent| && Examine(parent[..k], fs) == Pin(p) && ClearAbove(parent, fs, k);
        assert parent[..k] == start[..k];
        assert ClearAbove(start, fs, k) by {
          forall j | k < j <= |start| ensures Examine(start[..j], fs) == NoPin {
            if j < |start| { assert parent[..j] == start[..j]; }
          }
        }
      }
    }
  }

  /** The root directory's own `config.json` is never read. */
  lemma {:induction false} RootNeverExamined(start: Path, fs: FileSystem, rootConfig: ConfigFile)
    ensures Search(start, fs) == Search(start, fs[[] := rootConfig])
    ensures Search(start, fs) == Search(start, fs - {[]})
    decreases |start|
  {
    if start != [] {
      RootNeverExamined(Parent(start), fs, rootConfig);
      assert Examine(start, fs) == Examine(start, fs[[] := rootConfig]);
      assert Examine(start, fs) == Examine(start, fs - {[]});
    }
  }

  /** Directories without a usable pin do not stop the search: a
      `config.json` lacking `bridge` or `pin`, or with an empty pin, behaves
      like no file at all. */
  lemma NoPinContinues(dir: Path, fs: FileSystem, config: map<string, Value>)
    requires dir != []
    requires "bridge" !in config || !config["bridge"].JObject? ||
             "pin" !in config["bridge"].fields || !Truthy(config["bridge"].fields["pin"])
    ensures Search(dir, fs[dir := Parsed(JObject(config))]) == Search(Parent(dir), fs[dir := Parsed(JObject(config))])
  {
  }
}
