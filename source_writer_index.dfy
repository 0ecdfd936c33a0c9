/** Writing generated function sources (sourceWriter/index.ts): one module file per prefix
    holding one export per fragment, then an `index.js` that re-exports every module.

    A file write is recorded as a value; the directory and the file name are kept apart
    instead of being joined into one path. */
module SourceWriterIndex {
  import opened Strings
  import opened Sequences
  import V1Https
  import V1Storage
  import V1Tasks
  import V1Firestore
  import V1Database

  /** Any fragment the v1 generators create. */
  datatype Fragment =
    | Https(https: V1Https.HttpsFragment)
    | Storage(storage: V1Storage.StorageFragment)
    | Tasks(tasks: V1Tasks.TaskQueueFragment)
    | Firestore(firestore: V1Firestore.FirestoreFragment)
    | Database(database: V1Database.DatabaseFragment)

  /** `frag.asString()`. */
  function AsString(f: Fragment): string
  {
    match f
    case Https(h) => V1Https.AsString(h)
    case Storage(st) => V1Storage.AsString(st)
    case Tasks(t) => V1Tasks.AsString(t)
    case Firestore(fs) => V1Firestore.AsString(fs)
    case Database(d) => V1Database.AsString(d)
  }

  /** One entry of a prefix's fragment record: the exported name and its fragment. */
  datatype FnEntry = FnEntry(id: string, fragment: Fragment)

  /** One entry of `fnSources`: a prefix and its fragments, in entry order. */
  datatype PrefixSource = PrefixSource(prefix: string, fragments: seq<FnEntry>)

  /** `fs.writeFile(path.join(dir, name), content)`. */
  datatype FileWrite = FileWrite(dir: string, name: string, content: string)

  /** `import * as functions from "firebase-functions";`. */
  const SourceHeader: string := "import * as functions from " + FunctionsModule + ";"

  const FunctionsModule: string := "\"firebase-functions\""

  const IndexFile: string := "index.js"

  /** `export const <id>=<frag.asString()>`. */
  function ExportLine(e: FnEntry): string
  {
    "export const " + e.id + "=" + AsString(e.fragment)
  }

  /** One export line per fragment, in entry order. */
  function ExportLines(entries: seq<FnEntry>): seq<string>
  {
    Map(entries, ExportLine)
  }

  /** The content of `<prefix>.js`: the header, a newline, and the export lines joined by
      newlines. */
  function PrefixFileContent(entries: seq<FnEntry>): string
  {
    SourceHeader + "\n" + Join(ExportLines(entries), "\n")
  }

  function PrefixOf(source: PrefixSource): string
  {
    source.prefix
  }

  /** `Object.keys(fnSources)`. */
  function Prefixes(sources: seq<PrefixSource>): seq<string>
  {
    Map(sources, PrefixOf)
  }

  /** `export * as <prefix> from "./<prefix>.js";`. */
  function IndexLine(prefix: string): string
  {
    "export * as " + prefix + " from \"./" + prefix + ".js\";"
  }

  function IndexLines(prefixes: seq<string>): seq<string>
  {
    Map(prefixes, IndexLine)
  }

  /** The content of `index.js`. */
  function IndexContent(prefixes: seq<string>): string
  {
    Join(IndexLines(prefixes), "\n")
  }

  /** The write of `<prefix>.js` for one entry of `fnSources`. */
  function ModuleWrite(fpath: string, source: PrefixSource): FileWrite
  {
    FileWrite(fpath, source.prefix + ".js", PrefixFileContent(source.fragments))
  }

  /** The module-file writes for the given entries, in key order. */
  function ModuleWrites(fpath: string, sources: seq<PrefixSource>): (ws: seq<FileWrite>)
    ensures |ws| == |sources|
  {
    if |sources| == 0 then []
    else ModuleWrites(fpath, sources[..|sources| - 1]) + [ModuleWrite(fpath, sources[|sources| - 1])]
  }

  /** The k-th module write is the file of the k-th prefix. */
  lemma {:induction false} ModuleWritesInOrder(fpath: string, sources: seq<PrefixSource>)
    ensures forall k :: 0 <= k < |sources| ==> ModuleWrites(fpath, sources)[k] == ModuleWrite(fpath, sources[k])
    decreases |sources|
  {
    if |sources| > 0 {
      var init := sources[..|sources| - 1];
      var before := ModuleWrites(fpath, init);
      assert ModuleWrites(fpath, sources) == before + [ModuleWrite(fpath, sources[|sources| - 1])];
      ModuleWritesInOrder(fpath, init);
      forall k | 0 <= k < |init| ensures ModuleWrites(fpath, sources)[k] == ModuleWrite(fpath, sources[k]) {
        assert before[k] == ModuleWrite(fpath, init[k]);
        assert init[k] == sources[k];
      }
    }
  }

  /** `write(fpath, fnSources)`: one module file per prefix in key order, then `index.js`. */
  method Write(fpath: string, fnSources: seq<PrefixSource>) returns (writes: seq<FileWrite>)
    ensures writes == ModuleWrites(fpath, fnSources) + [FileWrite(fpath, IndexFile, IndexContent(Prefixes(fnSources)))]
    ensures |fnSources| == 0 ==> writes == [FileWrite(fpath, IndexFile, "")]
  {
    writes := [];
    for i := 0 to |fnSources|
      invariant writes == ModuleWrites(fpath, fnSources[..i])
    {
      var source := fnSources[i];
      assert fnSources[..i + 1][..i] == fnSources[..i];
      writes := writes + [FileWrite(fpath, source.prefix + ".js", PrefixFileContent(source.fragments))];
    }
    assert fnSources[..|fnSources|] == fnSources;
    writes := writes + [FileWrite(fpath, IndexFile, IndexContent(Prefixes(fnSources)))];
  }

  /** What `write` leaves behind, file by file: the k-th write is `<prefix>.js` of the k-th
      prefix, and `index.js`, written last, re-exports the prefixes in the same order. */
  lemma WritesInOrder(fpath: string, fnSources: seq<PrefixSource>, writes: seq<FileWrite>)
    requires writes == ModuleWrites(fpath, fnSources) + [FileWrite(fpath, IndexFile, IndexContent(Prefixes(fnSources)))]
    ensures |writes| == |fnSources| + 1
    ensures forall k :: 0 <= k < |fnSources| ==>
      writes[k].dir == fpath && writes[k].name == fnSources[k].prefix + ".js"
      && writes[k].content == PrefixFileContent(fnSources[k].fragments)
    ensures writes[|fnSources|].dir == fpath && writes[|fnSources|].name == IndexFile
    ensures forall k :: 0 <= k < |fnSources| ==> Prefixes(fnSources)[k] == fnSources[k].prefix
  {
    ModuleWritesInOrder(fpath, fnSources);
    MapAt(fnSources, PrefixOf);
    forall k | 0 <= k < |fnSources| ensures writes[k] == ModuleWrite(fpath, fnSources[k]) {
      assert writes[k] == ModuleWrites(fpath, fnSources)[k];
    }
  }

  /** A module file splits into the header and then exactly one line per fragment, in entry
      order, when no export line holds a newline. */
  lemma PrefixFileLines(entries: seq<FnEntry>)
    requires |entries| > 0
    requires forall k :: 0 <= k < |entries| ==> '\n' !in ExportLine(entries[k])
    ensures Split(PrefixFileContent(entries), '\n') == [SourceHeader] + ExportLines(entries)
  {
    HeaderHasNoNewline();
    MapAt(entries, ExportLine);
    HeadThenLines(SourceHeader, ExportLines(entries));
  }

  /** A prefix without fragments still gets the header, followed by a newline. */
  lemma EmptyPrefixFile()
    ensures PrefixFileContent([]) == SourceHeader + "\n"
  {
    assert ExportLines([]) == [];
  }

  /** A newline-free first line, a newline and newline-free lines joined by newlines split
      back into the first line followed by those lines. */
  lemma HeadThenLines(head: string, lines: seq<string>)
    requires '\n' !in head && |lines| > 0
    requires forall k :: 0 <= k < |lines| ==> '\n' !in lines[k]
    ensures Split(head + "\n" + Join(lines, "\n"), '\n') == [head] + lines
  {
    var all := [head] + lines;
    assert all[1..] == lines;
    assert Join(all, "\n") == head + "\n" + Join(lines, "\n");
    assert forall k :: 0 <= k < |all| ==> '\n' !in all[k] by {
      forall k | 0 <= k < |all| ensures '\n' !in all[k] {
        if k > 0 {
          assert all[k] == lines[k - 1];
        }
      }
    }
    SplitJoin(all, '\n');
  }

  lemma HeaderHasNoNewline()
    ensures '\n' !in SourceHeader
  {
    assert '\n' !in "import * as functions from ";
    assert '\n' !in FunctionsModule;
  }

  lemma IndexLineHasNoNewline(prefix: string)
    requires '\n' !in prefix
    ensures '\n' !in IndexLine(prefix)
  {
    assert '\n' !in "export * as ";
    assert '\n' !in " from \"./";
    assert '\n' !in ".js\";";
  }

  /** `index.js` splits into exactly one re-export line per prefix, in key order, when no
      prefix holds a newline. */
  lemma IndexFileLines(prefixes: seq<string>)
    requires |prefixes| > 0
    requires forall k :: 0 <= k < |prefixes| ==> '\n' !in prefixes[k]
    ensures Split(IndexContent(prefixes), '\n') == IndexLines(prefixes)
    ensures forall k :: 0 <= k < |prefixes| ==> IndexLines(prefixes)[k] == IndexLine(prefixes[k])
  {
    var lines := IndexLines(prefixes);
    MapAt(prefixes, IndexLine);
    forall k | 0 <= k < |lines| ensures '\n' !in lines[k] {
      IndexLineHasNoNewline(prefixes[k]);
    }
    SplitJoin(lines, '\n');
  }
}
