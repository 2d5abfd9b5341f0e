/** What the modelled code gets from outside: deserialised artifacts, the
    trained models' numeric behaviour, the file system and the clock. */
module Environment {
  import opened Wrappers
  import Text

  /** A deserialised artifact: an opaque trained object (model or scaler),
      a list of feature names, or a dictionary of further artifacts; PyNone
      is Python's None, which the service stores for an artifact it could
      not load. */
  datatype Obj =
    | PyNone
    | Opaque(id: nat)
    | Names(names: seq<string>)
    | Dict(entries: map<string, Obj>)

  /** Python truthiness of an artifact: None and empty containers are false,
      any other object (a trained model or scaler) is true. */
  predicate Truthy(o: Obj) {
    match o
    case PyNone => false
    case Opaque(_) => true
    case Names(names) => names != []
    case Dict(entries) => entries != map[]
  }

  /** The foreign numeric behaviour of trained models and scalers. Nothing is
      known about these functions; every property proved holds for all of them. */
  datatype Runtime = Runtime(
    predict: (Obj, seq<real>) -> real,          // model.predict(row)[0]
    predictProba: (Obj, seq<real>) -> real,     // model.predict_proba(row)[0][1]
    hasPredictProba: Obj -> bool,               // hasattr(model, 'predict_proba')
    featureCount: Obj -> Option<int>,           // model.n_features_in_, if the attribute exists
    transform: (Obj, seq<real>) -> seq<real>,   // scaler.transform(row)[0]
    scaleOne: (Obj, real) -> real,              // scaler.transform([[x]])[0][0]
    unscaleOne: (Obj, real) -> real)            // scaler.inverse_transform([[y]])[0][0]

  /** What a file holds: something the deserialiser can read, a JSON object of
      numbers (the per-category error files, the only valid JSON modelled),
      or bytes that fail to load. */
  datatype FileContent = Pickle(obj: Obj) | JsonDoc(numbers: map<string, real>) | Unreadable

  /** The file system: regular files by path, and directory listings by path. */
  datatype FileSystem = FileSystem(files: map<string, FileContent>, dirs: map<string, seq<string>>) {
    /** os.path.exists */
    predicate Exists(path: string) {
      path in files || path in dirs
    }

    /** joblib.load: the stored object, or an exception for anything else. */
    function Load(path: string): (r: Try<Obj>)
      ensures r.Ok? <==> path in files && files[path].Pickle?
    {
      if path in files && files[path].Pickle? then Ok(files[path].obj) else Raised(LoadError)
    }
  }

  /** A path ending in '/' names a directory or nothing: the operating system
      refuses such a path for a regular file, so `os.path.exists` is false
      there unless a directory has that name. */
  predicate DirectoryPath(path: string) {
    |path| > 0 && path[|path| - 1] == '/'
  }

  predicate RegularFile(fs: FileSystem, path: string) {
    path in fs.files
  }

  /** The file systems the code runs on: no regular file under a path
      ending in '/'. */
  type Disk = fs: FileSystem | forall p :: RegularFile(fs, p) ==> !DirectoryPath(p)
    witness FileSystem(map[], map[])

  /** On a path ending in '/', existing means being a directory. */
  lemma DirectoryPathExists(disk: Disk, path: string)
    requires DirectoryPath(path)
    ensures disk.Exists(path) <==> path in disk.dirs
    ensures path !in disk.files
  {
  }

  /** A one-row DataFrame: its columns in insertion order, with their values. */
  type Row = seq<(string, real)>

  /** The row with the given column names and values. */
  function Zip(names: seq<string>, values: seq<real>): (r: Row)
    requires |names| == |values|
    ensures |r| == |names| && forall i :: 0 <= i < |r| ==> r[i] == (names[i], values[i])
  {
    if names == [] then [] else [(names[0], values[0])] + Zip(names[1..], values[1..])
  }

  /** `d.get(key)` on a dictionary given as its (key, value) items in
      insertion order, or the value of a frame's column: the value of the
      first item with that key, if any. */
  function Lookup<V>(pairs: seq<(string, V)>, key: string): (r: Option<V>)
    ensures r.None? <==> forall i :: 0 <= i < |pairs| ==> pairs[i].0 != key
    ensures r.Some? ==> exists i :: 0 <= i < |pairs| && pairs[i] == (key, r.value)
  {
    if pairs == [] then None
    else if pairs[0].0 == key then Some(pairs[0].1)
    else
      var rest := Lookup(pairs[1..], key);
      assert rest.Some? ==> exists i :: 0 <= i < |pairs[1..]| && pairs[1..][i] == (key, rest.value);
      rest
  }

  /** `d.get(key, default)`: the value under `key` when there is one, the
      default otherwise. */
  function LookupOr<V>(pairs: seq<(string, V)>, key: string, default: V): (r: V)
    ensures Lookup(pairs, key).Some? ==> r == Lookup(pairs, key).value
    ensures Lookup(pairs, key).None? ==> r == default
  {
    match Lookup(pairs, key)
    case Some(v) => v
    case None => default
  }

  /** `frame[columns]`: the values of the named columns in the order given,
      or a KeyError when any of them is not a column of the row. */
  function SelectColumns(row: Row, columns: seq<string>): (r: Try<seq<real>>)
    ensures r.Ok? <==> forall i :: 0 <= i < |columns| ==> Lookup(row, columns[i]).Some?
    ensures r.Raised? ==> r.exc == KeyError
    ensures r.Ok? ==> (|r.value| == |columns| &&
      forall i :: 0 <= i < |columns| ==> Lookup(row, columns[i]) == Some(r.value[i]))
  {
    if columns == [] then Ok([])
    else match Lookup(row, columns[0])
      case None => Raised(KeyError)
      case Some(v) =>
        match SelectColumns(row, columns[1..])
        case Ok(rest) => Ok([v] + rest)
        case Raised(e) => Raised(e)
  }

  /** The values of a row in column order (`frame.values[0]`). */
  function Values(row: Row): (r: seq<real>)
    ensures |r| == |row| && forall i :: 0 <= i < |row| ==> r[i] == row[i].1
  {
    seq(|row|, i requires 0 <= i < |row| => row[i].1)
  }

  /** os.path.join for two relative segments: one '/' between them unless the
      first is empty or already ends with one (absolute second segments are
      not modelled). */
  function PathJoin(a: string, b: string): (r: string)
    ensures |r| >= |a| + |b|
  {
    if a == "" then b else if a[|a| - 1] == '/' then a + b else a + "/" + b
  }

  /** A joined path is the second segment after nothing, or after the first
      segment and at most one '/'. */
  lemma PathJoinParts(a: string, b: string)
    ensures a == "" ==> PathJoin(a, b) == b
    ensures a != "" ==> |a| + |b| <= |PathJoin(a, b)| <= |a| + |b| + 1 && PathJoin(a, b)[..|a|] == a
    ensures PathJoin(a, b)[|PathJoin(a, b)| - |b|..] == b
  {
  }

  /** A joined path ends in '/' exactly when its last segment does. */
  lemma PathJoinDirectory(a: string, b: string)
    requires |b| > 0
    ensures DirectoryPath(PathJoin(a, b)) <==> DirectoryPath(b)
  {
    var r := PathJoin(a, b);
    PathJoinParts(a, b);
    assert r[|r| - 1] == r[|r| - |b|..][|b| - 1];
  }

  /** A calendar day as the code reads it off a datetime: the formatted date
      ('%Y-%m-%d'), the day number (days since an epoch, for comparisons),
      the weekday (0 = Monday) and the month. */
  datatype Day = Day(date: string, ordinal: int, weekday: int, month: int)

  /** The clock for one request: `calendar(k)` is the day `k` days after now,
      `second` the seconds elapsed since midnight now, and `hour` the hour now. */
  datatype Clock = Clock(calendar: nat -> Day, second: int, hour: int) {
    function Today(): Day { calendar(0) }
  }
}
