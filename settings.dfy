/**
 * `SettingsStatus`: five options held in memory and mirrored to one
 * persisted record, the sqlite row with id 1 in 3.0 and the json file in 3.1.
 *
 * Every `SettingsStatus` object of the program (the main window's, the
 * settings window's, the one `main` makes) reads and writes the same record,
 * so the record is a separate object here that several of them may share.
 * Getters reload it first, which is how one object sees another's writes.
 */
module Settings {
  import opened Wrappers

  /**
   * The five options, stored under the names "batteryCare",
   * "batteryCareNotif", "startAtStartup", "startMinimize" and
   * "resetTimesAfterBatteryStatusChsnged".
   */
  datatype Key = BatteryCare | BatteryCareNotif | StartAtStartup | StartMinimize | ResetTimes

  /** The five options as held in memory. */
  datatype Config = Config(batteryCare: bool, batteryCareNotif: bool, startAtStartup: bool,
                           startMinimize: bool, resetTimes: bool)

  /**
   * The persisted record, key by key. What the program writes always holds
   * all five keys; a json file edited by hand may lack some.
   */
  type Record = map<Key, bool>

  /** The built-in value of each option. */
  function Default(k: Key): bool {
    k != StartAtStartup
  }

  const Defaults := Config(true, true, false, true, true)

  function Field(c: Config, k: Key): bool {
    match k
    case BatteryCare => c.batteryCare
    case BatteryCareNotif => c.batteryCareNotif
    case StartAtStartup => c.startAtStartup
    case StartMinimize => c.startMinimize
    case ResetTimes => c.resetTimes
  }

  /** The configuration with option `k` set to `v`: what each setter does in memory. */
  function With(c: Config, k: Key, v: bool): (r: Config)
    ensures Field(r, k) == v
    ensures forall j :: j != k ==> Field(r, j) == Field(c, j)
  {
    match k
    case BatteryCare => c.(batteryCare := v)
    case BatteryCareNotif => c.(batteryCareNotif := v)
    case StartAtStartup => c.(startAtStartup := v)
    case StartMinimize => c.(startMinimize := v)
    case ResetTimes => c.(resetTimes := v)
  }

  /** `saveSettings`: the whole record, all five keys from memory. */
  function Encode(c: Config): (r: Record)
    ensures forall k :: k in r && r[k] == Field(c, k)
  {
    var r := map[BatteryCare := c.batteryCare, BatteryCareNotif := c.batteryCareNotif,
                 StartAtStartup := c.startAtStartup, StartMinimize := c.startMinimize,
                 ResetTimes := c.resetTimes];
    FullRecord(c, r);
    r
  }

  /** A record that lists the five options of `c` under their keys holds exactly them. */
  lemma FullRecord(c: Config, r: Record)
    requires r == map[BatteryCare := c.batteryCare, BatteryCareNotif := c.batteryCareNotif,
                      StartAtStartup := c.startAtStartup, StartMinimize := c.startMinimize,
                      ResetTimes := c.resetTimes]
    ensures forall k :: k in r && r[k] == Field(c, k)
  {
    forall k ensures k in r && r[k] == Field(c, k) {
      match k {
        case BatteryCare =>
        case BatteryCareNotif =>
        case StartAtStartup =>
        case StartMinimize =>
        case ResetTimes =>
      }
    }
  }

  /** Reading a present record: each key if it is there, else that key's default. */
  function Decode(r: Record): (c: Config)
    ensures forall k :: Field(c, k) == if k in r then r[k] else Default(k)
  {
    Config(if BatteryCare in r then r[BatteryCare] else true,
           if BatteryCareNotif in r then r[BatteryCareNotif] else true,
           if StartAtStartup in r then r[StartAtStartup] else false,
           if StartMinimize in r then r[StartMinimize] else true,
           if ResetTimes in r then r[ResetTimes] else true)
  }

  /** What `loadSettings` puts in memory: the record read, or the defaults when it is missing. */
  function Loaded(stored: Option<Record>): (c: Config)
    ensures stored == None ==> c == Defaults
    ensures stored.Some? ==> c == Decode(stored.value)
  {
    match stored
    case None => Defaults
    case Some(r) => Decode(r)
  }

  /** What the store holds after `loadSettings`: a missing record is written with the defaults. */
  function AfterLoad(stored: Option<Record>): (r: Option<Record>)
    ensures r.Some?
    ensures stored.Some? ==> r == stored
  {
    if stored == None then Some(Encode(Defaults)) else stored
  }

  /** Save followed by load gives back every option. */
  lemma DecodeEncode(c: Config)
    ensures Decode(Encode(c)) == c
  {
  }

  /** Loading twice is loading once: the first load already leaves a record that reads the same. */
  lemma LoadIdempotent(stored: Option<Record>)
    ensures Loaded(AfterLoad(stored)) == Loaded(stored)
    ensures AfterLoad(AfterLoad(stored)) == AfterLoad(stored)
  {
    if stored == None {
      DecodeEncode(Defaults);
    }
  }

  /**
   * A setter followed by the matching getter returns the value set, and
   * every other getter returns what it returned before.
   */
  lemma SetThenGet(c: Config, k: Key, v: bool, j: Key)
    ensures Field(Loaded(Some(Encode(With(c, k, v)))), j) == if j == k then v else Field(c, j)
  {
    DecodeEncode(With(c, k, v));
  }

  /** A record holding none of the five keys reads as the defaults. */
  lemma EmptyRecordReadsDefaults()
    ensures Decode(map[]) == Defaults
  {
  }

  /** The settings database file or json file: the one record every reader shares. */
  class SettingsFile {
    var stored: Option<Record>

    constructor (initial: Option<Record>)
      ensures stored == initial
    {
      stored := initial;
    }
  }

  class SettingsStatus {
    const file: SettingsFile
    var batteryCare: bool
    var batteryCareNotif: bool
    var startAtStartup: bool
    var startMinimize: bool
    var resetTimes: bool

    /** The five in-memory options. */
    function Current(): Config
      reads this
    {
      Config(batteryCare, batteryCareNotif, startAtStartup, startMinimize, resetTimes)
    }

    /** `__init__`: open the shared record and load it. */
    constructor (file: SettingsFile)
      modifies file
      ensures this.file == file
      ensures Current() == Loaded(old(file.stored))
      ensures file.stored == AfterLoad(old(file.stored))
    {
      this.file := file;
      new;
      Load();
    }

    /** `loadSettings`: read the record, or fall back to the defaults and persist them. */
    method Load()
      modifies this, file
      ensures Current() == Loaded(old(file.stored))
      ensures file.stored == AfterLoad(old(file.stored))
      ensures file.stored == Some(Encode(Current())) || file.stored == old(file.stored)
    {
      match file.stored
      case Some(r) =>
        var c := Decode(r);
        batteryCare, batteryCareNotif := c.batteryCare, c.batteryCareNotif;
        startAtStartup, startMinimize := c.startAtStartup, c.startMinimize;
        resetTimes := c.resetTimes;
      case None =>
        batteryCare, batteryCareNotif, startAtStartup := true, true, false;
        startMinimize, resetTimes := true, true;
        Save();
    }

    /** `saveSettings`: replace the whole record with the five in-memory options. */
    method Save()
      modifies file
      ensures file.stored == Some(Encode(Current()))
    {
      file.stored := Some(Encode(Current()));
    }

    /**
     * The five setters (`setBatteryCare` ... `setResetTimesAfterBatteryStatusChsnged`):
     * change one option in memory and write the whole record through.
     */
    method Set(k: Key, v: bool)
      modifies this, file
      ensures Current() == With(old(Current()), k, v)
      ensures file.stored == Some(Encode(Current()))
    {
      match k {
        case BatteryCare => batteryCare := v;
        case BatteryCareNotif => batteryCareNotif := v;
        case StartAtStartup => startAtStartup := v;
        case StartMinimize => startMinimize := v;
        case ResetTimes => resetTimes := v;
      }
      Save();
    }

    /** The five getters: reload the record, then return one option. */
    method Get(k: Key) returns (v: bool)
      modifies this, file
      ensures Current() == Loaded(old(file.stored))
      ensures file.stored == AfterLoad(old(file.stored))
      ensures v == Field(Loaded(old(file.stored)), k)
    {
      Load();
      v := Field(Current(), k);
    }
  }

  /**
   * Two settings objects over one record: what one sets, the other's getter
   * returns, because the getter reloads first.
   */
  method WriteIsSeenByOtherReader(writer: SettingsStatus, reader: SettingsStatus, k: Key, v: bool)
    returns (seen: bool)
    requires writer.file == reader.file && writer != reader
    modifies writer, reader, writer.file
    ensures seen == v
  {
    writer.Set(k, v);
    seen := reader.Get(k);
    DecodeEncode(writer.Current());
  }
}
