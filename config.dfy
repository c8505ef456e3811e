/**
 * `Config`: plot settings kept as Python attributes.
 *
 * Every setting has a class-level default; an instance may shadow any of them
 * (and add new ones) through its own attribute dictionary, `__dict__`, which is
 * modelled as the map `own`. Reading `config.name` looks in `own` first and
 * falls back to the class. Saving writes `own` only; loading merges a file's
 * key/value map into `own` the way `dict.update` does. The JSON file itself is
 * modelled by the map it holds.
 */
module Config {
  import opened Wrappers

  /** The JSON-representable values a setting can hold. */
  datatype Value = Str(s: string) | Int(i: int) | Bool(b: bool) | Null

  /** Python's `bool(v)`: false exactly for null, `""`, `0` and `False`. */
  predicate Truthy(v: Value)
    ensures !Truthy(v) <==> v in {Null, Str(""), Int(0), Bool(false)}
  {
    match v
    case Str(s) => s != ""
    case Int(i) => i != 0
    case Bool(b) => b
    case Null => false
  }

  /** The class-level attributes of `Config`. */
  const ClassDefaults: map<string, Value> := map[
    "x_column" := Str("sepal_width"),
    "y_column" := Str("sepal_length"),
    "z_column" := Str("petal_length"),
    "latitude_column" := Str("latitude"),
    "longitude_column" := Str("longitude"),
    "hover_name" := Str("species"),
    "color_column" := Str("species"),
    "title" := Str("Sepal Width vs Sepal Length"),
    "theme" := Str("plotly_dark"),
    "marker_size" := Int(10)
  ]

  /** The instance dictionary of a freshly constructed `Config()`. */
  const FreshInstance: map<string, Value> := map[]

  /**
   * Attribute lookup `config.name` for an instance whose own attributes are
   * `own`: the instance value if it has one, else the class default, else
   * `None` (Python raises AttributeError).
   */
  function Lookup(own: map<string, Value>, name: string): (r: Option<Value>)
    ensures var layered := ClassDefaults + own;
      r == if name in layered then Some(layered[name]) else None
  {
    if name in own then Some(own[name])
    else if name in ClassDefaults then Some(ClassDefaults[name])
    else None
  }

  /** The value of a class-level setting as a fresh `Config()` reads it. */
  function FreshRead(name: string): (v: Value)
    requires name in ClassDefaults
    ensures v == ClassDefaults[name]
  {
    Lookup(FreshInstance, name).value
  }

  /** `dict.update`: every key of `file` overwrites or is added, the rest stay. */
  function Merge(own: map<string, Value>, file: map<string, Value>): (r: map<string, Value>)
    ensures r.Keys == own.Keys + file.Keys
    ensures forall k :: k in file ==> r[k] == file[k]
    ensures forall k :: k in own && k !in file ==> r[k] == own[k]
  {
    own + file
  }

  class Config {
    /** The instance's own attributes (`self.__dict__`). */
    var own: map<string, Value>

    /** `Config()`: no instance attributes, every read falls through to the class. */
    constructor ()
      ensures own == FreshInstance
      ensures forall name :: Get(name) == (if name in ClassDefaults then Some(ClassDefaults[name]) else None)
    {
      own := FreshInstance;
    }

    /** Attribute read `self.name`. */
    function Get(name: string): (v: Option<Value>)
      reads this
      ensures name in own ==> v == Some(own[name])
      ensures name !in own && name in ClassDefaults ==> v == Some(ClassDefaults[name])
      ensures v.None? <==> name !in own && name !in ClassDefaults
    {
      Lookup(own, name)
    }

    /** `save_to_file`: the file receives the instance attributes and nothing else. */
    method SaveToFile() returns (file: map<string, Value>)
      ensures file.Keys == own.Keys
      ensures forall name :: name in file ==> file[name] == own[name]
    {
      file := own;
    }

    /** `load_from_file`: `self.__dict__.update(file)`, without any validation. */
    method LoadFromFile(file: map<string, Value>)
      modifies this
      ensures own == Merge(old(own), file)
      ensures forall name :: name in file ==> Get(name) == Some(file[name])
      ensures forall name :: name !in file ==> Get(name) == old(Get(name))
    {
      own := Merge(own, file);
    }
  }

  /**
   * Saving one instance and loading the file into a fresh one reproduces the
   * instance attributes, and so every attribute read.
   */
  method SaveThenLoadFresh(c: Config) returns (d: Config)
    ensures fresh(d)
    ensures d.own == c.own
    ensures forall name :: d.Get(name) == c.Get(name)
  {
    var file := c.SaveToFile();
    d := new Config();
    d.LoadFromFile(file);
  }

  /** Reads after a merge: file keys win, other keys keep their current value. */
  lemma MergeLookup(own: map<string, Value>, file: map<string, Value>, name: string)
    ensures name in file ==> Lookup(Merge(own, file), name) == Some(file[name])
    ensures name !in file ==> Lookup(Merge(own, file), name) == Lookup(own, name)
    ensures Merge(own, file).Keys == own.Keys + file.Keys
  {
  }

  /** Loading the same file twice is the same as loading it once. */
  lemma MergeIdempotent(own: map<string, Value>, file: map<string, Value>)
    ensures Merge(Merge(own, file), file) == Merge(own, file)
  {
  }

  /** Loading a saved instance dictionary into a fresh instance gives it back. */
  lemma LoadIntoFreshRoundTrip(saved: map<string, Value>)
    ensures Merge(FreshInstance, saved) == saved
  {
  }

  /** A fresh instance reads exactly the class defaults. */
  lemma FreshReadsDefaults(name: string)
    ensures Lookup(FreshInstance, name).Some? <==> name in ClassDefaults
    ensures name in ClassDefaults ==> Lookup(FreshInstance, name) == Some(ClassDefaults[name])
  {
  }
}
