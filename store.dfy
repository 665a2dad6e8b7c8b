/** The record's file: what saving writes, and what loading takes from it.
    The file format library is abstract here: saving yields the sequence of
    entries it is asked to write, and a file that loading opens is the map from
    each key it holds to that key's value. */
module Store {
  import opened Wrappers
  import opened Records

  /** One write into the file: the header (file type and format version),
      or a key/value string pair. */
  datatype Entry = Header(fileType: string, version: nat) | Pair(key: string, value: string)

  const FileType: string := "ID Data"
  const FormatVersion: nat := 1

  /** The key under which the file stores a field. */
  function Key(f: Field): string {
    match f
    case Name => "Name"
    case Email => "Email"
    case Tel => "Tel"
    case Addr => "Addr"
    case Notes => "Notes"
  }

  /** No two fields share a key. */
  lemma KeysDistinct(f: Field, g: Field)
    ensures Key(f) == Key(g) <==> f == g
  {
  }

  /** The writes a successful save makes for record `r`: the header, then one
      pair per field in the file's fixed order. */
  function SaveLog(r: Record): (log: seq<Entry>)
    ensures |log| == 6 && log[0] == Header(FileType, FormatVersion)
    ensures forall i :: 1 <= i < |log| ==> log[i].Pair?
  {
    [ Header(FileType, FormatVersion),
      Pair("Name", r.name),
      Pair("Email", r.email),
      Pair("Tel", r.tel),
      Pair("Addr", r.addr),
      Pair("Notes", r.notes) ]
  }

  /** The save order: header "ID Data" version 1 first, then for the i-th field
      of the fixed order its key and its current value. */
  lemma SaveLogOrder(r: Record)
    ensures |SaveLog(r)| == 1 + |FieldOrder|
    ensures SaveLog(r)[0] == Header(FileType, FormatVersion)
    ensures forall i :: 0 <= i < |FieldOrder| ==>
              SaveLog(r)[i + 1] == Pair(Key(FieldOrder[i]), Get(r, FieldOrder[i]))
  {
  }

  /** The key/value content of a written file: each key that some pair
      carries, with the value of the first pair that carries it. */
  function Contents(log: seq<Entry>): (m: map<string, string>)
    ensures forall i :: 0 <= i < |log| && log[i].Pair? ==> log[i].key in m
  {
    if log == [] then map[]
    else
      match log[0]
      case Header(_, _) => Contents(log[1..])
      case Pair(key, value) => Contents(log[1..])[key := value]
  }

  /** A key that no earlier pair carries reads the value of its pair. */
  lemma {:induction false} ContentsFirst(log: seq<Entry>, i: nat)
    requires i < |log| && log[i].Pair?
    requires forall j :: 0 <= j < i && log[j].Pair? ==> log[j].key != log[i].key
    ensures Contents(log)[log[i].key] == log[i].value
  {
    if i > 0 {
      forall j | 0 <= j < i - 1 && log[1..][j].Pair? ensures log[1..][j].key != log[1..][i - 1].key {
        assert log[1..][j] == log[j + 1];
      }
      ContentsFirst(log[1..], i - 1);
    }
  }

  /** Every key of the content comes from a pair of the log. */
  lemma {:induction false} ContentsKeys(log: seq<Entry>, k: string)
    requires k in Contents(log)
    ensures exists i :: 0 <= i < |log| && log[i] == Pair(k, Contents(log)[k])
  {
    if log[0].Pair? && log[0].key == k {
      assert log[0] == Pair(k, Contents(log)[k]);
    } else {
      ContentsKeys(log[1..], k);
      var j :| 0 <= j < |log[1..]| && log[1..][j] == Pair(k, Contents(log[1..])[k]);
      assert log[j + 1] == Pair(k, Contents(log)[k]);
    }
  }

  /** The value a read of `key` leaves in a field that held `prior`. */
  function ReadInto(file: map<string, string>, key: string, prior: string): string {
    if key in file then file[key] else prior
  }

  /** The record after loading: nothing changes when the file does not open;
      otherwise each field is overwritten exactly when its key is read, and
      keeps its prior value when it is not. */
  function Merge(r: Record, file: Option<map<string, string>>): (r': Record)
    ensures file.None? ==> r' == r
    ensures file.Some? ==> forall f :: Get(r', f) == (if Key(f) in file.value then file.value[Key(f)] else Get(r, f))
  {
    match file
    case None => r
    case Some(m) =>
      Record(ReadInto(m, "Name", r.name), ReadInto(m, "Email", r.email), ReadInto(m, "Tel", r.tel),
             ReadInto(m, "Addr", r.addr), ReadInto(m, "Notes", r.notes))
  }

  /** Loading what a save wrote restores every field, whatever the record held before. */
  lemma LoadAfterSave(prior: Record, r: Record)
    ensures Merge(prior, Some(Contents(SaveLog(r)))) == r
  {
    var log := SaveLog(r);
    var m := Contents(log);
    forall f ensures Get(Merge(prior, Some(m)), f) == Get(r, f) {
      var i := match f case Name => 1 case Email => 2 case Tel => 3 case Addr => 4 case Notes => 5;
      assert log[i] == Pair(Key(f), Get(r, f));
      ContentsFirst(log, i);
    }
    RecordExtensionality(Merge(prior, Some(m)), r);
  }

  /** Loading the same file twice leaves the record as loading it once. */
  lemma MergeIdempotent(r: Record, file: Option<map<string, string>>)
    ensures Merge(Merge(r, file), file) == Merge(r, file)
  {
    if file.Some? {
      forall f ensures Get(Merge(Merge(r, file), file), f) == Get(Merge(r, file), f) {
      }
      RecordExtensionality(Merge(Merge(r, file), file), Merge(r, file));
    }
  }

  /** A file holding only Name and Email overwrites those two fields and
      leaves Tel, Addr and Notes as they were. */
  lemma PartialFile(r: Record, name: string, email: string)
    ensures Merge(r, Some(map["Name" := name, "Email" := email])) == r.(name := name, email := email)
  {
    var m := map["Name" := name, "Email" := email];
    forall f ensures Get(Merge(r, Some(m)), f) == Get(r.(name := name, email := email), f) {
    }
    RecordExtensionality(Merge(r, Some(m)), r.(name := name, email := email));
  }
}
