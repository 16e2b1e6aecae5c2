/**
 * The agent's checkpoint store (runtime/agentic/checkpoint.py): a JSON object kept in one
 * file, checked for version 1 on load and overwritten on save. The filesystem is a map
 * from path to text, `json.load` and `json.dump` are oracles (`Parser`, `Dumper`), and an
 * operating-system error is a flag.
 */
module Checkpoint {
  import opened Wrappers
  import opened Json

  /** `json.loads`: None when the text is not JSON. */
  type Parser = string -> Option<Json>
  /** `json.dumps`. */
  type Dumper = Json -> string

  /** The files the runtime reads and writes. */
  class Disk {
    var files: map<string, string>

    constructor(files: map<string, string>)
      ensures this.files == files
    {
      this.files := files;
    }
  }

  /** Python's `data.get("version") != 1` is false for 1 and for True, which equals 1. */
  predicate IsVersionOne(j: Json)
  {
    j == JInt(1) || j == JBool(true)
  }

  /** `load_checkpoint`: the stored object when the file exists, can be read, holds a JSON
      object, and that object's version is 1; otherwise None, and never an exception. */
  function LoadCheckpoint(files: map<string, string>, path: string, parse: Parser, readOk: bool): (r: Option<Dict>)
    ensures path !in files || !readOk ==> r.None?
    ensures r.Some? <==> path in files && readOk && parse(files[path]).Some? && parse(files[path]).value.JObj? &&
                         IsVersionOne(Get(parse(files[path]).value.fields, "version", JNull))
    ensures r.Some? ==> parse(files[path]) == Some(JObj(r.value))
  {
    if path !in files || !readOk then None
    else match parse(files[path])
      case None => None
      case Some(data) =>
        if !data.JObj? then None
        else if !IsVersionOne(Get(data.fields, "version", JNull)) then None
        else Some(data.fields)
  }

  /** `state.setdefault("version", 1)`. */
  function WithVersion(state: Dict): (r: Dict)
    ensures "version" in r
    ensures "version" in state ==> r == state
    ensures "version" !in state ==> r == state["version" := JInt(1)]
  {
    if "version" in state then state else state["version" := JInt(1)]
  }

  /** The files after a save: the state file holds the dumped state, unless writing failed. */
  function SavedFiles(files: map<string, string>, path: string, state: Dict, dump: Dumper, writeOk: bool): (r: map<string, string>)
    ensures writeOk ==> path in r && r[path] == dump(JObj(WithVersion(state)))
    ensures forall p :: p != path ==> (p in r <==> p in files) && (p in r ==> r[p] == files[p])
    ensures !writeOk ==> r == files
  {
    if writeOk then files[path := dump(JObj(WithVersion(state)))] else files
  }

  /** `save_checkpoint`: the caller's dict gains a default version, then the file is
      overwritten; a write error is reported on the console and swallowed. */
  method SaveCheckpoint(disk: Disk, path: string, state: Dict, dump: Dumper, writeOk: bool) returns (stored: Dict)
    modifies disk
    ensures stored == WithVersion(state)
    ensures disk.files == SavedFiles(old(disk.files), path, state, dump, writeOk)
  {
    stored := state;
    if "version" !in stored {
      stored := stored["version" := JInt(1)];
    }
    if writeOk {
      disk.files := disk.files[path := dump(JObj(stored))];
    }
  }

  /** A successful save followed by a load gives back the saved object exactly when its
      version is 1, assuming only that the JSON encoder and decoder agree on that object. */
  lemma SaveThenLoad(files: map<string, string>, path: string, state: Dict, parse: Parser, dump: Dumper)
    requires parse(dump(JObj(WithVersion(state)))) == Some(JObj(WithVersion(state)))
    ensures LoadCheckpoint(SavedFiles(files, path, state, dump, true), path, parse, true) ==
              if IsVersionOne(WithVersion(state)["version"]) then Some(WithVersion(state)) else None
  {}

  /** A state without a version is stored, and loaded back, with version 1. */
  lemma UnversionedStateRoundTrips(files: map<string, string>, path: string, state: Dict, parse: Parser, dump: Dumper)
    requires "version" !in state
    requires parse(dump(JObj(state["version" := JInt(1)]))) == Some(JObj(state["version" := JInt(1)]))
    ensures LoadCheckpoint(SavedFiles(files, path, state, dump, true), path, parse, true) == Some(state["version" := JInt(1)])
  {
    assert WithVersion(state) == state["version" := JInt(1)];
  }

  /** `setdefault` keeps a version that is already there, so a state saved with version 2
      is written as it is and refused by the next load. */
  lemma ForeignVersionIsRefused(files: map<string, string>, path: string, state: Dict, parse: Parser, dump: Dumper)
    requires "version" in state && state["version"] == JInt(2)
    requires parse(dump(JObj(state))) == Some(JObj(state))
    ensures WithVersion(state) == state
    ensures LoadCheckpoint(SavedFiles(files, path, state, dump, true), path, parse, true) == None
  {}
}
