/**
 * The directory `data/benchmarks/pages`, one JSON file per benchmark page.
 * Both the site (nextjs-temp/src/lib/benchmarks.ts) and the enrichment
 * script (nextjs-temp/scripts/enrich-benchmarks.js) list it, read every
 * ".json" entry and, in the script's case, write each one back in place.
 */
module Pages {
  import opened Text
  import opened Types

  /** What reading and parsing a file gives: a record, or a JSON syntax error. */
  datatype FileContent = Parsed(data: BenchmarkPageData) | Malformed

  /**
   * The directory as the programs see it: `names` is the order in which
   * `readdirSync` lists the entries, `files` the content of each entry
   * (a listed name missing from `files` cannot be read), and `readOnly` the
   * entries whose write fails.
   */
  class PagesDir {
    var names: seq<string>
    var files: map<string, FileContent>
    var readOnly: set<string>
  }

  /** `names.filter(f => f.endsWith(".json"))`. */
  function JsonNames(names: seq<string>): (r: seq<string>)
    ensures |r| <= |names|
    ensures forall n :: n in r <==> n in names && EndsWith(n, ".json")
  {
    Filter(names, n => EndsWith(n, ".json"))
  }

  /**
   * The filter keeps the listing order: the ".json" names of a listing are
   * those of its first part followed by those of the rest, and a single
   * entry is kept exactly when it ends in ".json".
   */
  lemma JsonNamesInOrder(a: seq<string>, b: seq<string>, n: string)
    ensures JsonNames(a + b) == JsonNames(a) + JsonNames(b)
    ensures JsonNames([n]) == if EndsWith(n, ".json") then [n] else []
  {
    FilterAppend(a, b, n => EndsWith(n, ".json"));
    assert [n][1..] == [];
  }

  /** The record read from `name`, or nothing when the file is missing or does not parse. */
  function ReadRecord(name: string, files: map<string, FileContent>): (r: seq<BenchmarkPageData>)
    ensures |r| <= 1
    ensures r != [] <==> name in files && files[name].Parsed?
    ensures r != [] ==> r == [files[name].data]
  {
    if name in files && files[name].Parsed? then [files[name].data] else []
  }

  /** The records of `names` in order, the unreadable ones skipped. */
  function ParsedRecords(names: seq<string>, files: map<string, FileContent>): (r: seq<BenchmarkPageData>)
    ensures |r| <= |names|
  {
    if names == [] then []
    else ParsedRecords(names[..|names| - 1], files) + ReadRecord(names[|names| - 1], files)
  }

  /** A record is read exactly when some listed file holds it. */
  lemma {:induction false} ParsedRecordsMembers(names: seq<string>, files: map<string, FileContent>, d: BenchmarkPageData)
    ensures d in ParsedRecords(names, files) <==> exists n :: n in names && n in files && files[n] == Parsed(d)
  {
    if names != [] {
      var init := names[..|names| - 1];
      var last := names[|names| - 1];
      ParsedRecordsMembers(init, files, d);
      assert names == init + [last];
      if d in ParsedRecords(names, files) && d !in ParsedRecords(init, files) {
        assert last in names && last in files && files[last] == Parsed(d);
      }
      if exists n :: n in names && n in files && files[n] == Parsed(d) {
        var n :| n in names && n in files && files[n] == Parsed(d);
        if n != last {
          assert n in init;
        }
      }
    }
  }

  /** No file is skipped exactly when every listed file parses. */
  lemma {:induction false} ParsedRecordsComplete(names: seq<string>, files: map<string, FileContent>)
    ensures |ParsedRecords(names, files)| == |names| <==> forall n :: n in names ==> n in files && files[n].Parsed?
  {
    if names != [] {
      var init := names[..|names| - 1];
      var last := names[|names| - 1];
      ParsedRecordsComplete(init, files);
      assert names == init + [last];
      if !(last in files && files[last].Parsed?) {
        assert |ParsedRecords(names, files)| < |names|;
      }
    }
  }
}
