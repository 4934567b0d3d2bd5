/** `create_client_files` of the packaged generator's template helpers:
    from the client directory, every YAML template of the client listing
    is written as its single record, except that the Geist font
    stylesheet is written only when fonts were chosen. */
module ClientFiles {
  import opened Base
  import opened Fs
  import opened Templates

  const FontsTemplate := "fonts.css.yaml"

  function ClientEntry(fonts: bool, e: Entry): seq<Action> {
    if !IsYaml(e) then []
    else if e.name == FontsTemplate then (if fonts then CreateSingle(e.doc) else [])
    else CreateSingle(e.doc)
  }

  function ClientPlan(fonts: bool): Entry -> seq<Action> {
    e => ClientEntry(fonts, e)
  }

  /** `create_client_files(client_dir, fonts)`. */
  function CreateClientFilesFn(st: State, clientDir: Path, fonts: bool, listing: seq<Entry>): (State, Outcome) {
    ExecAllFn(ChDirFn(st, clientDir), PlanAll(ClientPlan(fonts), listing))
  }

  /** The font stylesheet is written exactly when fonts were chosen. */
  lemma FontsGated(fonts: bool, rec: Record)
    ensures ClientEntry(fonts, Entry(FontsTemplate, One(rec))) == if fonts then [Create(rec.filename, rec.content)] else []
  {
    assert FontsTemplate[|FontsTemplate| - 5..] == ".yaml";
  }

  /** Every other YAML template is written verbatim, fonts or not; other
      files are skipped. */
  lemma OthersWritten(fonts: bool, e: Entry)
    requires e.name != FontsTemplate
    ensures ClientEntry(fonts, e) == if EndsWith(e.name, ".yaml") then CreateSingle(e.doc) else []
    ensures ClientEntry(fonts, e) == ClientEntry(!fonts, e)
  {
  }

  /** From an absolute client directory, a run that passes appends
      exactly the planned writes, each resolved in that directory, and
      leaves the working directory there. */
  lemma ClientFilesWriteInDir(st: State, clientDir: Path, fonts: bool, listing: seq<Entry>)
    requires StartsWith(clientDir, "/") && CreateClientFilesFn(st, clientDir, fonts, listing).1.Pass?
    ensures var r := CreateClientFilesFn(st, clientDir, fonts, listing);
      r.0.log == st.log + WritesOf(clientDir, PlanAll(ClientPlan(fonts), listing)) && r.0.cwd == clientDir
  {
    var st1 := ChDirFn(st, clientDir);
    ChDirAbsolute(st, clientDir);
    var acts := PlanAll(ClientPlan(fonts), listing);
    assert CreateClientFilesFn(st, clientDir, fonts, listing) == ExecAllFn(st1, acts);
    ExecAllWrites(st1, acts);
  }

  method CreateClientFiles(h: Host, clientDir: Path, fonts: bool, listing: seq<Entry>) returns (o: Outcome)
    modifies h
    ensures (h.Snap(), o) == CreateClientFilesFn(old(h.Snap()), clientDir, fonts, listing)
  {
    h.ChDir(clientDir);
    o := RunListing(h, ClientPlan(fonts), listing);
  }
}
