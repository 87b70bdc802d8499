/**
 * The settings store (`settingsStore.ts`): three sections of named values,
 * general, trade and appearance, loaded once from the settings table and
 * written back a whole section at a time.
 *
 * The settings table is a field of the store, mapping a row key (the
 * section name) to the stored section. How reading it goes is a parameter.
 * JSON values are modelled as flags, numbers and text.
 */
module Settings {

  datatype Value = Flag(b: bool) | Number(n: real) | Text(s: string)

  type Section = map<string, Value>

  datatype AppSettings = AppSettings(general: Section, trade: Section, appearance: Section)

  /** The settings table: row key to stored section. */
  type Table = map<string, Section>

  datatype SectionName = General | Trade | Appearance

  /** The row key a section is stored under. */
  function RowKey(s: SectionName): string
  {
    match s
    case General => "general"
    case Trade => "trade"
    case Appearance => "appearance"
  }

  function SectionOf(st: AppSettings, s: SectionName): Section
  {
    match s
    case General => st.general
    case Trade => st.trade
    case Appearance => st.appearance
  }

  function WithSection(st: AppSettings, s: SectionName, section: Section): (r: AppSettings)
    ensures SectionOf(r, s) == section
    ensures forall t :: t != s ==> SectionOf(r, t) == SectionOf(st, t)
  {
    match s
    case General => st.(general := section)
    case Trade => st.(trade := section)
    case Appearance => st.(appearance := section)
  }

  const DefaultGeneral: Section :=
    map["autoSave" := Flag(true), "showGrid" := Flag(true), "defaultChartType" := Text("candlesticks")]

  const DefaultTrade: Section :=
    map["bidDistance" := Number(5.0), "askDistance" := Number(5.0), "spread" := Number(2.0),
        "slippage" := Number(1.0), "lotSize" := Number(0.01), "maxOrders" := Number(10.0),
        "stopLoss" := Number(50.0), "takeProfit" := Number(100.0)]

  const DefaultAppearance: Section :=
    map["theme" := Text("dark"), "fontSize" := Text("medium"), "accentColor" := Text("#3b82f6")]

  /** `defaultSettings`. */
  const Defaults: AppSettings := AppSettings(DefaultGeneral, DefaultTrade, DefaultAppearance)

  /** `{ ...defaults, ...saved }`: saved keys override, missing keys take the default. */
  function Merge(defaults: Section, saved: Section): (m: Section)
    ensures m.Keys == defaults.Keys + saved.Keys
    ensures forall k :: k in saved ==> m[k] == saved[k]
    ensures forall k :: k in defaults && k !in saved ==> m[k] == defaults[k]
  {
    defaults + saved
  }

  /** `savedSettings.general || {}` and the like: a missing row is an empty section. */
  function Saved(table: Table, s: SectionName): Section
  {
    if RowKey(s) in table then table[RowKey(s)] else map[]
  }

  /** The defaults of one section. */
  function DefaultSection(s: SectionName): Section
  {
    SectionOf(Defaults, s)
  }

  /** One section as `init` builds it: the saved row merged over the defaults. */
  function LoadedSection(table: Table, s: SectionName): (m: Section)
    ensures DefaultSection(s).Keys <= m.Keys
    ensures RowKey(s) !in table ==> m == DefaultSection(s)
  {
    Merge(DefaultSection(s), Saved(table, s))
  }

  /** The settings `init` builds from the table. */
  function Loaded(table: Table): (st: AppSettings)
    ensures forall s :: SectionOf(st, s) == LoadedSection(table, s)
  {
    AppSettings(LoadedSection(table, General), LoadedSection(table, Trade), LoadedSection(table, Appearance))
  }

  /** Every section holds at least the keys of its defaults. */
  predicate Complete(st: AppSettings)
  {
    forall s :: DefaultSection(s).Keys <= SectionOf(st, s).Keys
  }

  /** Loading always gives complete settings. */
  lemma LoadedComplete(table: Table)
    ensures Complete(Loaded(table))
  {
    forall s ensures DefaultSection(s).Keys <= SectionOf(Loaded(table), s).Keys {
      assert SectionOf(Loaded(table), s) == LoadedSection(table, s);
    }
  }

  /** An empty table loads the defaults. */
  lemma LoadEmpty()
    ensures Loaded(map[]) == Defaults
  {
    var st := Loaded(map[]);
    assert st.general == SectionOf(st, General) == DefaultSection(General);
    assert st.trade == SectionOf(st, Trade) == DefaultSection(Trade);
    assert st.appearance == SectionOf(st, Appearance) == DefaultSection(Appearance);
  }

  /** A section that already has every default key is unchanged by merging the defaults under it. */
  lemma MergeComplete(defaults: Section, saved: Section)
    requires defaults.Keys <= saved.Keys
    ensures Merge(defaults, saved) == saved
  {
  }

  /** `updateX(key, value)`: that key of that section takes the value. */
  function UpdateSetting(st: AppSettings, s: SectionName, key: string, value: Value): (r: AppSettings)
    ensures SectionOf(r, s).Keys == SectionOf(st, s).Keys + {key}
    ensures SectionOf(r, s)[key] == value
    ensures forall k :: k in SectionOf(st, s) && k != key ==> SectionOf(r, s)[k] == SectionOf(st, s)[k]
    ensures forall t :: t != s ==> SectionOf(r, t) == SectionOf(st, t)
  {
    WithSection(st, s, SectionOf(st, s)[key := value])
  }

  /** Writing one section's row changes what loading gives for that section only. */
  lemma SectionAfterWrite(table: Table, s: SectionName, section: Section, t: SectionName)
    requires DefaultSection(s).Keys <= section.Keys
    ensures LoadedSection(table[RowKey(s) := section], t) == (if t == s then section else LoadedSection(table, t))
  {
    var table' := table[RowKey(s) := section];
    if t == s {
      assert Saved(table', s) == section;
      MergeComplete(DefaultSection(s), section);
    } else {
      assert RowKey(t) != RowKey(s);
      assert Saved(table', t) == Saved(table, t);
    }
  }

  /** Writing a complete state's section and loading again gives the updated state. */
  lemma {:induction false} ReloadAfterWrite(table: Table, st: AppSettings, s: SectionName, section: Section)
    requires Loaded(table) == st
    requires DefaultSection(s).Keys <= section.Keys
    ensures Loaded(table[RowKey(s) := section]) == WithSection(st, s, section)
  {
    var r := Loaded(table[RowKey(s) := section]);
    var w := WithSection(st, s, section);
    forall t ensures SectionOf(r, t) == SectionOf(w, t) {
      SectionAfterWrite(table, s, section, t);
    }
    SameSections(r, w);
  }

  lemma SameSections(a: AppSettings, b: AppSettings)
    requires forall t :: SectionOf(a, t) == SectionOf(b, t)
    ensures a == b
  {
    assert a.general == SectionOf(a, General) == SectionOf(b, General);
    assert a.trade == SectionOf(a, Trade) == SectionOf(b, Trade);
    assert a.appearance == SectionOf(a, Appearance) == SectionOf(b, Appearance);
  }

  /**
   * How `getAllSettings` goes: opening the database throws; the query or the
   * JSON of a row fails, which it reports as an empty table; or it gives the
   * rows.
   */
  datatype ReadOutcome = OpenFails | QueryFails | Rows

  /** The position of a section's write in `reset`: general, then trade, then appearance. */
  function WriteRank(s: SectionName): nat
  {
    match s
    case General => 0
    case Trade => 1
    case Appearance => 2
  }

  /**
   * The table after `reset` when the database accepts its first `accepted`
   * writes and rejects the next one, which ends `reset`.
   */
  function ResetTable(table: Table, accepted: nat): Table
  {
    var t1 := if accepted >= 1 then table[RowKey(General) := DefaultGeneral] else table;
    var t2 := if accepted >= 2 then t1[RowKey(Trade) := DefaultTrade] else t1;
    if accepted >= 3 then t2[RowKey(Appearance) := DefaultAppearance] else t2
  }

  /**
   * Each row `reset` reached holds its defaults; every other row, and every
   * key that is not a section's, is as it was.
   */
  lemma ResetTableRows(table: Table, accepted: nat)
    ensures var t := ResetTable(table, accepted);
      && (forall s :: WriteRank(s) < accepted ==> RowKey(s) in t && t[RowKey(s)] == DefaultSection(s))
      && (forall s :: WriteRank(s) >= accepted ==> Saved(t, s) == Saved(table, s))
      && (forall k :: k != "general" && k != "trade" && k != "appearance" ==> (k in t <==> k in table) && (k in t ==> t[k] == table[k]))
  {
    var t := ResetTable(table, accepted);
    forall s ensures WriteRank(s) >= accepted ==> Saved(t, s) == Saved(table, s) {
      if WriteRank(s) >= accepted {
        assert RowKey(s) in t <==> RowKey(s) in table;
      }
    }
  }

  /**
   * After `reset`, loading the table gives the defaults for every section it
   * wrote and what the table gave before for the others; when all three
   * writes are accepted, that is the defaults.
   */
  lemma ReloadAfterReset(table: Table, accepted: nat)
    ensures forall s :: SectionOf(Loaded(ResetTable(table, accepted)), s)
                        == if WriteRank(s) < accepted then DefaultSection(s) else SectionOf(Loaded(table), s)
    ensures accepted >= 3 ==> Loaded(ResetTable(table, accepted)) == Defaults
  {
    var t := ResetTable(table, accepted);
    ResetTableRows(table, accepted);
    var r := Loaded(t);
    forall s ensures SectionOf(r, s) == if WriteRank(s) < accepted then DefaultSection(s) else SectionOf(Loaded(table), s) {
      if WriteRank(s) < accepted {
        assert Saved(t, s) == DefaultSection(s);
        MergeComplete(DefaultSection(s), DefaultSection(s));
      }
    }
    if accepted >= 3 {
      SameSections(r, Defaults);
    }
  }

  class SettingsStore {
    var state: AppSettings
    var isInitialized: bool
    var table: Table
    /** The state was read from the table, or written to it, since the last unreadable load. */
    ghost var synced: bool

    /**
     * The state is complete, and while in step with the table it is what
     * loading the table again would give.
     */
    ghost predicate Valid()
      reads this
    {
      Complete(state) && (synced ==> Loaded(table) == state)
    }

    /** The store starts at the defaults, not yet loaded. */
    constructor(stored: Table)
      ensures state == Defaults && !isInitialized && table == stored && !synced
      ensures Valid()
    {
      state := Defaults;
      isInitialized := false;
      table := stored;
      synced := false;
    }

    /**
     * `init`: a no-op once loaded. Otherwise the merged table when the rows
     * are read; the defaults, marked loaded, when the query fails, since
     * `getAllSettings` then answers with no rows; and the defaults, left
     * unloaded so a later call tries again, when the database cannot be
     * opened.
     */
    method Init(read: ReadOutcome)
      requires Valid()
      modifies this
      ensures Valid() && table == old(table)
      ensures old(isInitialized) ==> state == old(state) && isInitialized && synced == old(synced)
      ensures !old(isInitialized) && read.Rows? ==> state == Loaded(table) && isInitialized && synced
      ensures !old(isInitialized) && read.QueryFails? ==> state == Defaults && isInitialized
      ensures !old(isInitialized) && read.OpenFails? ==> state == Defaults && !isInitialized
      ensures !old(isInitialized) && !read.Rows? ==> synced == (old(synced) && Loaded(table) == Defaults)
    {
      if isInitialized {
        return;
      }
      if read.OpenFails? {
        state := Defaults;
        synced := synced && Loaded(table) == Defaults;
        return;
      }
      if read.QueryFails? {
        LoadEmpty();
        LoadedComplete(map[]);
        state := Loaded(map[]);
        isInitialized := true;
        synced := synced && Loaded(table) == Defaults;
        return;
      }
      LoadedComplete(table);
      state := Loaded(table);
      isInitialized := true;
      synced := true;
    }

    /** The body shared by `updateGeneral`, `updateTrade` and `updateAppearance`. */
    method Update(s: SectionName, key: string, value: Value)
      requires Valid()
      modifies this
      ensures state == UpdateSetting(old(state), s, key, value)
      ensures table == old(table)[RowKey(s) := SectionOf(state, s)]
      ensures isInitialized == old(isInitialized) && synced == old(synced) && Valid()
    {
      var updated := UpdateSetting(state, s, key, value);
      if synced {
        ReloadAfterWrite(table, state, s, SectionOf(updated, s));
      }
      state := updated;
      table := table[RowKey(s) := SectionOf(state, s)];
    }

    /** `updateGeneral`: `key` is one of the general settings. */
    method UpdateGeneral(key: string, value: Value)
      requires Valid() && key in DefaultGeneral
      modifies this
      ensures state == UpdateSetting(old(state), General, key, value)
      ensures table == old(table)["general" := state.general]
      ensures isInitialized == old(isInitialized) && synced == old(synced) && Valid()
    {
      Update(General, key, value);
    }

    /** `updateTrade`: `key` is one of the trade settings. */
    method UpdateTrade(key: string, value: Value)
      requires Valid() && key in DefaultTrade
      modifies this
      ensures state == UpdateSetting(old(state), Trade, key, value)
      ensures table == old(table)["trade" := state.trade]
      ensures isInitialized == old(isInitialized) && synced == old(synced) && Valid()
    {
      Update(Trade, key, value);
    }

    /** `updateAppearance`: `key` is one of the appearance settings. */
    method UpdateAppearance(key: string, value: Value)
      requires Valid() && key in DefaultAppearance
      modifies this
      ensures state == UpdateSetting(old(state), Appearance, key, value)
      ensures table == old(table)["appearance" := state.appearance]
      ensures isInitialized == old(isInitialized) && synced == old(synced) && Valid()
    {
      Update(Appearance, key, value);
    }

    /**
     * `reset`: the defaults, then the three rows written one after the other.
     * The database accepts the first `accepted` writes; a rejected write ends
     * `reset` with the error (`ok` false) and leaves the rows after it as they
     * were, so the state mirrors the table only if the table loads the
     * defaults.
     */
    method Reset(accepted: nat) returns (ok: bool)
      requires Valid()
      modifies this
      ensures state == Defaults && table == ResetTable(old(table), accepted)
      ensures ok <==> accepted >= 3
      ensures isInitialized == old(isInitialized) && (synced <==> Loaded(table) == state) && (ok ==> synced) && Valid()
    {
      var rows := table;
      ok := false;
      if accepted >= 1 {
        rows := rows[RowKey(General) := DefaultGeneral];
        if accepted >= 2 {
          rows := rows[RowKey(Trade) := DefaultTrade];
          if accepted >= 3 {
            rows := rows[RowKey(Appearance) := DefaultAppearance];
            ok := true;
          }
        }
      }
      assert rows == ResetTable(table, accepted);
      ReloadAfterReset(table, accepted);
      LoadEmpty();
      LoadedComplete(map[]);
      state, table, synced := Defaults, rows, Loaded(rows) == Defaults;
    }
  }
}
