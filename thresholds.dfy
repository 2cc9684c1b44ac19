// The threshold set that labels a sample as warning, overload or critical,
// shared by both dataset generators (they differ only in their defaults).
module Thresholds {
  import opened Wrappers
  import opened JsonValues

  datatype Levels = Levels(warning: real, overload: real, critical: real)

  datatype ThresholdConfig = ThresholdConfig(memory: Levels, cpu: Levels, disk: Levels)

  datatype Resource = Memory | Cpu | Disk

  datatype ConfigError =
    | InvalidThresholds(resource: Resource)  // ValueError (or TypeError for a non-number) from the check
    | MissingKey(key: string)                 // KeyError while reading the JSON file
    | NotAnObject(key: string)                // TypeError: indexing something that is not a dict

  /** The ordering every resource's thresholds must obey. */
  predicate ValidLevels(l: Levels)
  {
    0.0 <= l.warning < l.overload < l.critical <= 100.0
  }

  predicate Valid(c: ThresholdConfig)
  {
    ValidLevels(c.memory) && ValidLevels(c.cpu) && ValidLevels(c.disk)
  }

  /**
   * The constructor: memory, then CPU, then disk are checked, and the first
   * resource that fails stops construction before any field is set.
   */
  function Make(memory: Levels, cpu: Levels, disk: Levels): (r: Result<ThresholdConfig, ConfigError>)
    ensures r.Ok? <==> ValidLevels(memory) && ValidLevels(cpu) && ValidLevels(disk)
    ensures r.Ok? ==> r.value == ThresholdConfig(memory, cpu, disk) && Valid(r.value)
    ensures !ValidLevels(memory) ==> r == Err(InvalidThresholds(Memory))
    ensures ValidLevels(memory) && !ValidLevels(cpu) ==> r == Err(InvalidThresholds(Cpu))
    ensures ValidLevels(memory) && ValidLevels(cpu) && !ValidLevels(disk) ==> r == Err(InvalidThresholds(Disk))
  {
    if !ValidLevels(memory) then Err(InvalidThresholds(Memory))
    else if !ValidLevels(cpu) then Err(InvalidThresholds(Cpu))
    else if !ValidLevels(disk) then Err(InvalidThresholds(Disk))
    else Ok(ThresholdConfig(memory, cpu, disk))
  }

  /** Defaults of the lab generator. */
  function LabDefaults(): (c: ThresholdConfig)
    ensures Make(c.memory, c.cpu, c.disk) == Ok(c)
  {
    ThresholdConfig(Levels(30.0, 40.0, 50.0), Levels(70.0, 80.0, 90.0), Levels(75.0, 85.0, 95.0))
  }

  /** Defaults of the collection system. */
  function ColetaDefaults(): (c: ThresholdConfig)
    ensures Make(c.memory, c.cpu, c.disk) == Ok(c)
  {
    ThresholdConfig(Levels(70.0, 80.0, 90.0), Levels(70.0, 80.0, 90.0), Levels(75.0, 85.0, 95.0))
  }

  function LevelsToJson(l: Levels): Json
  {
    JObj([("warning", JNum(l.warning)), ("overload", JNum(l.overload)), ("critical", JNum(l.critical))])
  }

  /** `to_dict`: three nested dicts keyed by resource and level. */
  function ToDict(c: ThresholdConfig): (j: Json)
    ensures j.JObj? && |j.fields| == 3
  {
    JObj([("memory", LevelsToJson(c.memory)), ("cpu", LevelsToJson(c.cpu)), ("disk", LevelsToJson(c.disk))])
  }

  /** `config[outer][inner]`, failing as Python's indexing does. */
  function Field(config: Json, outer: string, inner: string): (r: Result<Json, ConfigError>)
  {
    if !config.JObj? then Err(NotAnObject(outer))
    else match Lookup(config.fields, outer)
      case None => Err(MissingKey(outer))
      case Some(section) =>
        if !section.JObj? then Err(NotAnObject(inner))
        else match Lookup(section.fields, inner)
          case None => Err(MissingKey(inner))
          case Some(v) => Ok(v)
  }

  /** The three JSON values of one resource, read in argument order. */
  function Section(config: Json, name: string): Result<(Json, Json, Json), ConfigError>
  {
    match Field(config, name, "warning")
    case Err(e) => Err(e)
    case Ok(w) =>
      match Field(config, name, "overload")
      case Err(e) => Err(e)
      case Ok(o) =>
        match Field(config, name, "critical")
        case Err(e) => Err(e)
        case Ok(c) => Ok((w, o, c))
  }

  /** A triple of JSON values as thresholds; a non-number fails that resource's check. */
  function ToLevels(t: (Json, Json, Json)): Option<Levels>
  {
    match (AsNumber(t.0), AsNumber(t.1), AsNumber(t.2))
    case (Some(w), Some(o), Some(c)) => Some(Levels(w, o, c))
    case _ => None
  }

  function CheckSection(t: (Json, Json, Json), r: Resource): Result<Levels, ConfigError>
  {
    match ToLevels(t)
    case Some(l) => if ValidLevels(l) then Ok(l) else Err(InvalidThresholds(r))
    case None => Err(InvalidThresholds(r))
  }

  /**
   * `load_from_file` after `json.load`: all nine values are read (any missing
   * key raises), then the constructor validates them.
   */
  function FromDict(config: Json): (r: Result<ThresholdConfig, ConfigError>)
    ensures r.Ok? ==> Valid(r.value)
  {
    match Section(config, "memory")
    case Err(e) => Err(e)
    case Ok(m) =>
      match Section(config, "cpu")
      case Err(e) => Err(e)
      case Ok(c) =>
        match Section(config, "disk")
        case Err(e) => Err(e)
        case Ok(d) => Construct(m, c, d)
  }

  /** The constructor applied to the values read from the file. */
  function Construct(m: (Json, Json, Json), c: (Json, Json, Json), d: (Json, Json, Json)): (r: Result<ThresholdConfig, ConfigError>)
    ensures r.Ok? ==> Valid(r.value)
  {
    match CheckSection(m, Memory)
    case Err(e) => Err(e)
    case Ok(ml) =>
      match CheckSection(c, Cpu)
      case Err(e) => Err(e)
      case Ok(cl) =>
        match CheckSection(d, Disk)
        case Err(e) => Err(e)
        case Ok(dl) => Make(ml, cl, dl)
  }

  lemma LevelsFields(l: Levels)
    ensures Lookup(LevelsToJson(l).fields, "warning") == Some(JNum(l.warning))
    ensures Lookup(LevelsToJson(l).fields, "overload") == Some(JNum(l.overload))
    ensures Lookup(LevelsToJson(l).fields, "critical") == Some(JNum(l.critical))
  {
    var f := LevelsToJson(l).fields;
    assert "warning"[0] != "overload"[0] && "warning"[0] != "critical"[0] && "overload"[0] != "critical"[0];
    assert f[1..] == [("overload", JNum(l.overload)), ("critical", JNum(l.critical))];
    assert f[1..][1..] == [("critical", JNum(l.critical))];
    assert Lookup(f[1..][1..], "critical") == Some(JNum(l.critical));
    assert Lookup(f[1..], "critical") == Some(JNum(l.critical));
  }

  lemma {:induction false} SectionOfToDict(c: ThresholdConfig, name: string, l: Levels)
    requires (name == "memory" && l == c.memory) || (name == "cpu" && l == c.cpu) || (name == "disk" && l == c.disk)
    ensures Section(ToDict(c), name) == Ok((JNum(l.warning), JNum(l.overload), JNum(l.critical)))
  {
    var f := ToDict(c).fields;
    assert "memory"[0] != "cpu"[0] && "memory"[0] != "disk"[0] && "cpu"[0] != "disk"[0];
    assert f[1..] == [("cpu", LevelsToJson(c.cpu)), ("disk", LevelsToJson(c.disk))];
    assert f[1..][1..] == [("disk", LevelsToJson(c.disk))];
    assert Lookup(f[1..][1..], "disk") == Some(LevelsToJson(c.disk));
    assert Lookup(f[1..], "disk") == Some(LevelsToJson(c.disk));
    assert Lookup(f, name) == Some(LevelsToJson(l));
    LevelsFields(l);
  }

  /** Reading back `to_dict()` rebuilds the same nine thresholds. */
  lemma {:induction false} RoundTrip(c: ThresholdConfig)
    requires Valid(c)
    ensures FromDict(ToDict(c)) == Ok(c)
  {
    var j := ToDict(c);
    var m := (JNum(c.memory.warning), JNum(c.memory.overload), JNum(c.memory.critical));
    var u := (JNum(c.cpu.warning), JNum(c.cpu.overload), JNum(c.cpu.critical));
    var d := (JNum(c.disk.warning), JNum(c.disk.overload), JNum(c.disk.critical));
    SectionOfToDict(c, "memory", c.memory);
    SectionOfToDict(c, "cpu", c.cpu);
    SectionOfToDict(c, "disk", c.disk);
    ConstructNumbers(c);
    assert FromDict(j) == Construct(m, u, d);
  }

  lemma ConstructNumbers(c: ThresholdConfig)
    requires Valid(c)
    ensures Construct((JNum(c.memory.warning), JNum(c.memory.overload), JNum(c.memory.critical)),
                      (JNum(c.cpu.warning), JNum(c.cpu.overload), JNum(c.cpu.critical)),
                      (JNum(c.disk.warning), JNum(c.disk.overload), JNum(c.disk.critical))) == Ok(c)
  {
  }

  /** A file that validates describes thresholds obeying the ordering, and is
      exactly what `to_dict` writes for them up to number representation. */
  lemma {:induction false} FromDictOnlyValid(j: Json)
    requires FromDict(j).Ok?
    ensures Valid(FromDict(j).value)
    ensures FromDict(ToDict(FromDict(j).value)) == FromDict(j)
  {
    RoundTrip(FromDict(j).value);
  }
}
