/**
 The per-session options carried at _meta.claude.options (session_meta.go) and how a restore overlays them on a stored
 record (agent_session.go). `accepts` stands for the environment check of acp-go-core, which is not part of this
 model; the theorems hold for any.
 */
module Carrier {
  import opened Options

  /** A decoded JSON value under a key the adapter does not look into. */
  datatype Json = JString(text: string) | JOther(code: nat)

  /** The dynamic types a metadata value can have. */
  datatype Value =
    | Text(text: string)
    | Flag(flag: bool)
    | Strings(strings: seq<string>)
    | List(items: seq<Json>)
    | Table(table: map<string, string>)
    | Object(members: map<string, Json>)
    | Alien

  type Env = map<string, string>
  type Accepts = (Option<Env>, Option<seq<string>>) -> bool

  datatype ClaudeOptions = ClaudeOptions(
    model: string,
    env: Option<Env>,
    extraPathDirs: Option<seq<string>>,
    outputSchema: Option<map<string, Json>>,
    effort: string,
    permissionMode: string,
    bare: bool,
    bareSet: bool,
    systemPrompt: string)

  /** The keys of the options object; any other name is refused. */
  datatype Key = MODEL | ENV | DIRS | SCHEMA | EFFORT | MODE | BARE | PROMPT | Other(name: string)

  const KEYS := {MODEL, ENV, DIRS, SCHEMA, EFFORT, MODE, BARE, PROMPT}
  const MODES := {"default", "manual", "plan", "acceptEdits", "bypassPermissions", "auto", "dontAsk"}

  function Empty(): ClaudeOptions {
    ClaudeOptions("", None, None, None, "", "", false, false, "")
  }

  /******* Printing *******/

  /** What one key prints, if anything. */
  function Printed(o: ClaudeOptions, key: Key): Option<Value> {
    if key == MODEL then (if o.model != "" then Some(Text(o.model)) else None)
    else if key == ENV then (if o.env.Some? then Some(Table(o.env.value)) else None)
    else if key == DIRS then (if o.extraPathDirs.Some? then Some(Strings(o.extraPathDirs.value)) else None)
    else if key == SCHEMA then (if o.outputSchema.Some? then Some(Object(o.outputSchema.value)) else None)
    else if key == EFFORT then (if o.effort != "" then Some(Text(o.effort)) else None)
    else if key == MODE then (if o.permissionMode != "" then Some(Text(o.permissionMode)) else None)
    else if key == BARE then (if o.bare || o.bareSet then Some(Flag(o.bare)) else None)
    else if key == PROMPT then (if o.systemPrompt != "" then Some(Text(o.systemPrompt)) else None)
    else None
  }

  function MetaOf(o: ClaudeOptions, keys: set<Key>): map<Key, Value> {
    map key | key in keys && Printed(o, key).Some? :: Printed(o, key).value
  }

  function Meta(o: ClaudeOptions): map<Key, Value> {
    MetaOf(o, KEYS)
  }

  lemma PrintsOneMore(o: ClaudeOptions, keys: set<Key>, key: Key)
    ensures MetaOf(o, keys + {key})
            == if Printed(o, key).Some? then MetaOf(o, keys)[key := Printed(o, key).value] else MetaOf(o, keys)
  {
  }

  const LAUNCH_KEYS := {MODEL, ENV, DIRS, SCHEMA}

  /** The first half of the printer: what a launch is given. */
  method PrintLaunch(o: ClaudeOptions) returns (values: map<Key, Value>)
    ensures values == MetaOf(o, LAUNCH_KEYS)
  {
    values := map[];
    if o.model != "" {
      values := values[MODEL := Text(o.model)];
    }
    if o.env.Some? {
      values := values[ENV := Table(o.env.value)];
    }
    if o.extraPathDirs.Some? {
      values := values[DIRS := Strings(o.extraPathDirs.value)];
    }
    if o.outputSchema.Some? {
      values := values[SCHEMA := Object(o.outputSchema.value)];
    }
  }

  method PrintMeta(o: ClaudeOptions) returns (values: map<Key, Value>)
    ensures values == Meta(o)
  {
    values := PrintLaunch(o);
    PrintsOneMore(o, LAUNCH_KEYS, EFFORT);
    if o.effort != "" {
      values := values[EFFORT := Text(o.effort)];
    }
    PrintsOneMore(o, LAUNCH_KEYS + {EFFORT}, MODE);
    if o.permissionMode != "" {
      values := values[MODE := Text(o.permissionMode)];
    }
    PrintsOneMore(o, LAUNCH_KEYS + {EFFORT} + {MODE}, BARE);
    if o.bare || o.bareSet {
      values := values[BARE := Flag(o.bare)];
    }
    PrintsOneMore(o, LAUNCH_KEYS + {EFFORT} + {MODE} + {BARE}, PROMPT);
    if o.systemPrompt != "" {
      values := values[PROMPT := Text(o.systemPrompt)];
    }
    assert LAUNCH_KEYS + {EFFORT} + {MODE} + {BARE} + {PROMPT} == KEYS;
  }

  /******* Parsing *******/

  /** A string map arrives as itself or as a decoded object of strings. */
  function StringMap(v: Value): Option<Env> {
    match v
    case Table(t) => Some(t)
    case Object(m) =>
      if forall k :: k in m ==> m[k].JString? then Some(map k | k in m && m[k].JString? :: m[k].text) else None
    case _ => None
  }

  function StringSlice(v: Value): Option<seq<string>> {
    match v
    case Strings(l) => Some(l)
    case List(items) =>
      if forall i :: 0 <= i < |items| ==> items[i].JString?
      then Some(seq(|items|, i requires 0 <= i < |items| => if items[i].JString? then items[i].text else ""))
      else None
    case _ => None
  }

  /** One key's value, set in the options read so far; None when the key or its value is refused. */
  function ReadKey(o: ClaudeOptions, key: Key, v: Value): Option<ClaudeOptions> {
    if key == MODEL then (if v.Text? && v.text != "" then Some(o.(model := v.text)) else None)
    else if key == ENV then (if StringMap(v).Some? then Some(o.(env := StringMap(v))) else None)
    else if key == DIRS then (if StringSlice(v).Some? then Some(o.(extraPathDirs := StringSlice(v))) else None)
    else if key == SCHEMA then (if v.Object? then Some(o.(outputSchema := Some(v.members))) else None)
    else if key == EFFORT then (if v.Text? && v.text != "" then Some(o.(effort := v.text)) else None)
    else if key == MODE then (if v.Text? then Some(o.(permissionMode := v.text)) else None)
    else if key == PROMPT then (if v.Text? then Some(o.(systemPrompt := v.text)) else None)
    else if key == BARE then (if v.Flag? then Some(o.(bare := v.flag, bareSet := true)) else None)
    else None
  }

  predicate Readable(key: Key, v: Value) {
    ReadKey(Empty(), key, v).Some?
  }

  /** The options a readable map holds, whatever order its keys are read in. */
  function Read(values: map<Key, Value>): ClaudeOptions {
    ClaudeOptions(
      if MODEL in values && values[MODEL].Text? then values[MODEL].text else "",
      if ENV in values then StringMap(values[ENV]) else None,
      if DIRS in values then StringSlice(values[DIRS]) else None,
      if SCHEMA in values && values[SCHEMA].Object? then Some(values[SCHEMA].members) else None,
      if EFFORT in values && values[EFFORT].Text? then values[EFFORT].text else "",
      if MODE in values && values[MODE].Text? then values[MODE].text else "",
      BARE in values && values[BARE].Flag? && values[BARE].flag,
      BARE in values,
      if PROMPT in values && values[PROMPT].Text? then values[PROMPT].text else "")
  }

  predicate Valid(o: ClaudeOptions, accepts: Accepts) {
    && o.outputSchema != Some(map[])
    && (o.permissionMode == "" || o.permissionMode in MODES)
    && accepts(o.env, o.extraPathDirs)
  }

  predicate AllReadable(values: map<Key, Value>) {
    forall key :: key in values ==> Readable(key, values[key])
  }

  function Parse(values: map<Key, Value>, accepts: Accepts): Option<ClaudeOptions> {
    if AllReadable(values) && Valid(Read(values), accepts) then Some(Read(values)) else None
  }

  lemma ReadKeyAnywhere(o: ClaudeOptions, key: Key, v: Value)
    ensures ReadKey(o, key, v).Some? <==> Readable(key, v)
  {
  }

  /** Reading one more key of a map, in whatever order, agrees with reading the map at once. */
  lemma ReadExtends(values: map<Key, Value>, done: set<Key>, key: Key)
    requires done <= values.Keys && key in values && key !in done && Readable(key, values[key])
    ensures ReadKey(Read(Restrict(values, done)), key, values[key]) == Some(Read(Restrict(values, done + {key})))
  {
    assert Restrict(values, done + {key}) == Restrict(values, done)[key := values[key]];
    ReadAdds(Restrict(values, done), key, values[key]);
  }

  lemma ReadAdds(values: map<Key, Value>, key: Key, v: Value)
    requires key !in values && Readable(key, v)
    ensures ReadKey(Read(values), key, v) == Some(Read(values[key := v]))
  {
    if key == MODEL || key == EFFORT {
      ReadAddsText(values, key, v);
    } else if key == MODE || key == PROMPT {
      ReadAddsSetting(values, key, v);
    } else {
      ReadAddsOther(values, key, v);
    }
  }

  lemma ReadAddsText(values: map<Key, Value>, key: Key, v: Value)
    requires (key == MODEL || key == EFFORT) && Readable(key, v)
    ensures ReadKey(Read(values), key, v) == Some(Read(values[key := v]))
  {
  }

  lemma ReadAddsSetting(values: map<Key, Value>, key: Key, v: Value)
    requires (key == MODE || key == PROMPT) && Readable(key, v)
    ensures ReadKey(Read(values), key, v) == Some(Read(values[key := v]))
  {
  }

  lemma ReadAddsOther(values: map<Key, Value>, key: Key, v: Value)
    requires key == ENV || key == DIRS || key == SCHEMA || key == BARE
    requires Readable(key, v)
    ensures ReadKey(Read(values), key, v) == Some(Read(values[key := v]))
  {
  }

  function Restrict(values: map<Key, Value>, keys: set<Key>): map<Key, Value> {
    map key | key in values && key in keys :: values[key]
  }

  /** The map is walked in no particular order. */
  method ParseClaudeOptions(values: map<Key, Value>, accepts: Accepts) returns (r: Option<ClaudeOptions>)
    ensures r == Parse(values, accepts)
  {
    var options := Empty();
    var rest := values.Keys;
    assert Restrict(values, {}) == map[];
    while rest != {}
      invariant rest <= values.Keys
      invariant options == Read(Restrict(values, values.Keys - rest))
      invariant forall key :: key in values && key !in rest ==> Readable(key, values[key])
      decreases rest
    {
      var key :| key in rest;
      ghost var done := values.Keys - rest;
      var read := ReadKey(options, key, values[key]);
      ReadKeyAnywhere(options, key, values[key]);
      if read.None? {
        return None;
      }
      ReadExtends(values, done, key);
      rest := rest - {key};
      assert values.Keys - rest == done + {key};
      options := read.value;
    }
    assert Restrict(values, values.Keys - rest) == values;
    if options.outputSchema.Some? && |options.outputSchema.value| == 0 {
      return None;
    }
    if options.permissionMode != "" && options.permissionMode !in MODES {
      return None;
    }
    if !accepts(options.env, options.extraPathDirs) {
      return None;
    }
    r := Some(options);
  }

  /** The value a key may have: text for a model or an effort, not empty; text for a mode or a prompt; a flag for bare; an
      object for a schema; strings, or an object or a list of nothing but strings, for environment and directories. */
  predicate Typed(key: Key, v: Value) {
    match key
    case MODEL => v.Text? && v.text != ""
    case EFFORT => v.Text? && v.text != ""
    case MODE => v.Text?
    case PROMPT => v.Text?
    case BARE => v.Flag?
    case SCHEMA => v.Object?
    case ENV => v.Table? || (v.Object? && forall k :: k in v.members ==> v.members[k].JString?)
    case DIRS => v.Strings? || (v.List? && forall i :: 0 <= i < |v.items| ==> v.items[i].JString?)
    case Other(_) => false
  }

  predicate Mode(m: string) {
    || m == "" || m == "default" || m == "manual" || m == "plan" || m == "acceptEdits" || m == "bypassPermissions"
    || m == "auto" || m == "dontAsk"
  }

  lemma TypedIsReadable(key: Key, v: Value)
    ensures Readable(key, v) <==> Typed(key, v)
  {
  }

  /** Metadata is accepted exactly if every key is known and typed as it must be, a schema given is not empty, a mode given
      is one of the seven, and the environment passes its check. */
  lemma AcceptsExactly(values: map<Key, Value>, accepts: Accepts)
    ensures Parse(values, accepts).Some? <==>
              && (forall key :: key in values ==> Typed(key, values[key]))
              && (SCHEMA in values ==> values[SCHEMA].Object? && values[SCHEMA].members != map[])
              && (MODE in values ==> values[MODE].Text? && Mode(values[MODE].text))
              && accepts(Read(values).env, Read(values).extraPathDirs)
  {
    forall key | key in values ensures Readable(key, values[key]) <==> Typed(key, values[key]) {
      TypedIsReadable(key, values[key]);
    }
  }

  /** What is accepted has each field from its own key, and nothing where the key is absent. */
  lemma ParsesFields(values: map<Key, Value>, accepts: Accepts)
    requires Parse(values, accepts).Some? && forall key :: key in values ==> Typed(key, values[key])
    ensures var o := Parse(values, accepts).value;
            && o.model == (if MODEL in values then values[MODEL].text else "")
            && o.effort == (if EFFORT in values then values[EFFORT].text else "")
            && o.permissionMode == (if MODE in values then values[MODE].text else "")
            && o.systemPrompt == (if PROMPT in values then values[PROMPT].text else "")
            && o.bareSet == (BARE in values) && o.bare == (BARE in values && values[BARE].flag)
            && o.outputSchema == (if SCHEMA in values then Some(values[SCHEMA].members) else None)
    ensures var o := Parse(values, accepts).value;
            if ENV !in values then o.env.None?
            else if values[ENV].Table? then o.env == Some(values[ENV].table)
            else o.env.Some? && o.env.value.Keys == values[ENV].members.Keys
                 && forall k :: k in o.env.value ==> o.env.value[k] == values[ENV].members[k].text
    ensures var o := Parse(values, accepts).value;
            if DIRS !in values then o.extraPathDirs.None?
            else if values[DIRS].Strings? then o.extraPathDirs == Some(values[DIRS].strings)
            else o.extraPathDirs.Some? && |o.extraPathDirs.value| == |values[DIRS].items|
                 && forall i :: 0 <= i < |values[DIRS].items| ==> o.extraPathDirs.value[i] == values[DIRS].items[i].text
  {
  }

  /** Each field that is set prints under its own key and no other, a false bare only where it was named. */
  lemma PrintsFields(o: ClaudeOptions)
    ensures (MODEL in Meta(o) <==> o.model != "") && (MODEL in Meta(o) ==> Meta(o)[MODEL] == Text(o.model))
    ensures (EFFORT in Meta(o) <==> o.effort != "") && (EFFORT in Meta(o) ==> Meta(o)[EFFORT] == Text(o.effort))
    ensures (MODE in Meta(o) <==> o.permissionMode != "") && (MODE in Meta(o) ==> Meta(o)[MODE] == Text(o.permissionMode))
    ensures (PROMPT in Meta(o) <==> o.systemPrompt != "") && (PROMPT in Meta(o) ==> Meta(o)[PROMPT] == Text(o.systemPrompt))
    ensures (BARE in Meta(o) <==> o.bare || o.bareSet) && (BARE in Meta(o) ==> Meta(o)[BARE] == Flag(o.bare))
    ensures (ENV in Meta(o) <==> o.env.Some?) && (ENV in Meta(o) ==> Meta(o)[ENV] == Table(o.env.value))
    ensures (DIRS in Meta(o) <==> o.extraPathDirs.Some?) && (DIRS in Meta(o) ==> Meta(o)[DIRS] == Strings(o.extraPathDirs.value))
    ensures (SCHEMA in Meta(o) <==> o.outputSchema.Some?) && (SCHEMA in Meta(o) ==> Meta(o)[SCHEMA] == Object(o.outputSchema.value))
    ensures Meta(o).Keys <= {MODEL, ENV, DIRS, SCHEMA, EFFORT, MODE, BARE, PROMPT}
  {
    forall key | key in KEYS ensures key in Meta(o) <==> Printed(o, key).Some? { MetaAt(o, key); }
  }

  lemma MetaReadable(o: ClaudeOptions, key: Key)
    requires Printed(o, key).Some?
    ensures Readable(key, Printed(o, key).value)
  {
  }

  lemma MetaAt(o: ClaudeOptions, key: Key)
    requires key in KEYS
    ensures key in Meta(o) <==> Printed(o, key).Some?
    ensures key in Meta(o) ==> Meta(o)[key] == Printed(o, key).value
  {
  }

  lemma MetaReads(o: ClaudeOptions)
    ensures Read(Meta(o)) == o.(bareSet := o.bare || o.bareSet)
  {
  }

  /** Every options value validation accepts prints to metadata that parses back to it, a printed bare becoming
      explicitly set. */
  lemma PrintParses(o: ClaudeOptions, accepts: Accepts)
    requires Valid(o, accepts)
    ensures Parse(Meta(o), accepts) == Some(o.(bareSet := o.bare || o.bareSet))
  {
    forall key | key in Meta(o) ensures Readable(key, Meta(o)[key]) {
      MetaAt(o, key);
      MetaReadable(o, key);
    }
    MetaReads(o);
  }

  /** Metadata that parses is a fixed point of printing and parsing again. */
  lemma ParsePrintsParses(values: map<Key, Value>, accepts: Accepts)
    requires Parse(values, accepts).Some?
    ensures Parse(Meta(Parse(values, accepts).value), accepts) == Parse(values, accepts)
  {
    PrintParses(Read(values), accepts);
  }

  /** Two option values print the same exactly when they agree on every field, bareSet counting only for a false bare. */
  lemma MetaTellsApart(a: ClaudeOptions, b: ClaudeOptions)
    ensures Meta(a) == Meta(b) <==> a.(bareSet := a.bare || a.bareSet) == b.(bareSet := b.bare || b.bareSet)
  {
    if Meta(a) == Meta(b) {
      MetaReads(a);
      MetaReads(b);
    } else {
      assert forall key :: Printed(a, key) == Printed(a.(bareSet := a.bare || a.bareSet), key);
      assert forall key :: Printed(b, key) == Printed(b.(bareSet := b.bare || b.bareSet), key);
    }
  }

  /******* Restores *******/

  /** The stored configuration a restore reads. */
  datatype Record = Record(
    cwd: string,
    additionalDirectories: seq<string>,
    env: Option<Env>,
    extraPathDirs: Option<seq<string>>,
    model: string,
    effort: string,
    permissionMode: string,
    bare: bool,
    systemPrompt: string,
    outputSchema: Option<map<string, Json>>)

  /** What a restore request carries: its options, and which carrier fields it named. */
  datatype Start = Start(
    cwd: string,
    additionalDirectories: Option<seq<string>>,
    options: ClaudeOptions,
    presentEnv: bool,
    presentExtraPathDirs: bool)

  function Inherit(start: Start, r: Record): ClaudeOptions {
    var o := start.options;
    o.(env := if start.presentEnv then o.env else r.env,
       extraPathDirs := if start.presentExtraPathDirs then o.extraPathDirs else r.extraPathDirs,
       permissionMode := if o.permissionMode == "" then r.permissionMode else o.permissionMode,
       model := if o.model == "" then r.model else o.model,
       effort := if o.effort == "" then r.effort else o.effort,
       bare := if o.bareSet then o.bare else r.bare,
       systemPrompt := if o.systemPrompt == "" then r.systemPrompt else o.systemPrompt,
       outputSchema := if o.outputSchema.None? then r.outputSchema else o.outputSchema)
  }

  /** A restore takes each field from the request where it names it and else from the record; only what the request names
      counts as a bare explicitly set. */
  lemma InheritsFields(start: Start, r: Record)
    ensures var o, d := start.options, Inherit(start, r);
            && d.env == (if start.presentEnv then o.env else r.env)
            && d.extraPathDirs == (if start.presentExtraPathDirs then o.extraPathDirs else r.extraPathDirs)
            && d.permissionMode == (if o.permissionMode != "" then o.permissionMode else r.permissionMode)
            && d.model == (if o.model != "" then o.model else r.model)
            && d.effort == (if o.effort != "" then o.effort else r.effort)
            && d.bare == (if o.bareSet then o.bare else r.bare) && d.bareSet == o.bareSet
            && d.systemPrompt == (if o.systemPrompt != "" then o.systemPrompt else r.systemPrompt)
            && d.outputSchema == (if o.outputSchema.Some? then o.outputSchema else r.outputSchema)
  {
  }

  method InheritCarrier(start: Start, r: Record) returns (options: ClaudeOptions)
    ensures options == Inherit(start, r)
  {
    options := start.options;
    if !start.presentEnv {
      options := options.(env := r.env);
    }
    if !start.presentExtraPathDirs {
      options := options.(extraPathDirs := r.extraPathDirs);
    }
    if options.permissionMode == "" {
      options := options.(permissionMode := r.permissionMode);
    }
    if options.model == "" {
      options := options.(model := r.model);
    }
    if options.effort == "" {
      options := options.(effort := r.effort);
    }
    if !start.options.bareSet {
      options := options.(bare := r.bare);
    }
    if options.systemPrompt == "" {
      options := options.(systemPrompt := r.systemPrompt);
    }
    if options.outputSchema.None? {
      options := options.(outputSchema := r.outputSchema);
    }
  }

  function Unnamed(cwd: string): Start {
    Start(cwd, None, Empty(), false, false)
  }

  /** sameCarrier: the values a relaunch would use compare as printed metadata, bareSet cleared on both sides. */
  method SameCarrier(r: Record, start: Start) returns (same: bool)
    ensures same <==> Same(r, start)
  {
    if r.cwd != start.cwd {
      return false;
    }
    if start.additionalDirectories.Some? && r.additionalDirectories != start.additionalDirectories.value {
      return false;
    }
    var current := InheritCarrier(Unnamed(start.cwd), r);
    var requested := InheritCarrier(start, r);
    var a := PrintMeta(current.(bareSet := false));
    var b := PrintMeta(requested.(bareSet := false));
    same := a == b;
  }

  predicate Same(r: Record, start: Start) {
    && r.cwd == start.cwd
    && (start.additionalDirectories.Some? ==> r.additionalDirectories == start.additionalDirectories.value)
    && Meta(Inherit(Unnamed(start.cwd), r).(bareSet := false)) == Meta(Inherit(start, r).(bareSet := false))
  }

  /** Every carrier field the request names has the record's value. */
  predicate Agrees(r: Record, start: Start) {
    var o := start.options;
    && (start.presentEnv ==> o.env == r.env)
    && (start.presentExtraPathDirs ==> o.extraPathDirs == r.extraPathDirs)
    && (o.permissionMode != "" ==> o.permissionMode == r.permissionMode)
    && (o.model != "" ==> o.model == r.model)
    && (o.effort != "" ==> o.effort == r.effort)
    && (o.bareSet ==> o.bare == r.bare)
    && (o.systemPrompt != "" ==> o.systemPrompt == r.systemPrompt)
    && (o.outputSchema.Some? ==> o.outputSchema == r.outputSchema)
  }

  /** A restore names the live session's carrier exactly when every field it names agrees and the rest inherits. */
  lemma SameIffAgrees(r: Record, start: Start)
    ensures Same(r, start) <==>
            && r.cwd == start.cwd
            && (start.additionalDirectories.Some? ==> r.additionalDirectories == start.additionalDirectories.value)
            && Agrees(r, start)
  {
    MetaTellsApart(Inherit(Unnamed(start.cwd), r).(bareSet := false), Inherit(start, r).(bareSet := false));
  }

  /** A session whose options name no model runs the one that launch and its set-up fill in: the agent's default, or
      else the native one. */
  function Launched(model: string, defaultModel: string): string {
    if model == "" then defaultModel else model
  }

  /** The record of the session a restore establishes, before native readback changes model, effort or mode. */
  function Restored(start: Start, r: Record, defaultModel: string): Record {
    var o := Inherit(start, r);
    Record(start.cwd, if start.additionalDirectories.Some? then start.additionalDirectories.value else r.additionalDirectories,
           o.env, o.extraPathDirs, Launched(o.model, defaultModel), o.effort, o.permissionMode, o.bare, o.systemPrompt,
           o.outputSchema)
  }

  /** Overlaying one request on the record it produced changes nothing in the record, and compares as the same carrier;
      the options change at most in the model, which the record now names. */
  lemma RestoreRepeats(start: Start, r: Record, defaultModel: string)
    ensures Inherit(start, Restored(start, r, defaultModel)) ==
            Inherit(start, r).(model := if Inherit(start, r).model == "" then defaultModel else Inherit(start, r).model)
    ensures Restored(start, Restored(start, r, defaultModel), defaultModel) == Restored(start, r, defaultModel)
    ensures Same(Restored(start, r, defaultModel), start)
    ensures var s := Restored(start, r, defaultModel);
            && s.cwd == start.cwd
            && s.additionalDirectories ==
                 if start.additionalDirectories.Some? then start.additionalDirectories.value else r.additionalDirectories
  {
    SameIffAgrees(Restored(start, r, defaultModel), start);
  }
}
