/** The file synchronisation of scripts/sync_graphify_obsidian.py: `managed_generated_files` and
    `sync_outputs`. */
module VaultSync {
  import opened Basics

  /** A path relative to the vault, as its parts. */
  type Path = seq<string>

  const GENERATED_ROOT: Path := ["Architecture", "Generated", "Graphify"]
  const MARKER := "generated_by: \"chadex-graphify-obsidian-sync\""

  /** The order of paths, part by part. */
  predicate PathLess(a: Path, b: Path)
    decreases |a|
  {
    if b == [] then false
    else if a == [] then true
    else if a[0] != b[0] then LexLess(a[0], b[0])
    else PathLess(a[1..], b[1..])
  }

  lemma {:induction false} PathTrichotomy(a: Path, b: Path)
    ensures PathLess(a, b) || a == b || PathLess(b, a)
    decreases |a|
  {
    if a != [] && b != [] {
      LexTrichotomy(a[0], b[0]);
      if a[0] == b[0] {
        PathTrichotomy(a[1..], b[1..]);
        assert a == [a[0]] + a[1..] && b == [b[0]] + b[1..];
      }
    }
  }

  lemma {:induction false} PathTransitive(a: Path, b: Path, c: Path)
    requires PathLess(a, b) && PathLess(b, c)
    ensures PathLess(a, c)
    decreases |a|
  {
    if a != [] {
      if a[0] == b[0] && b[0] == c[0] {
        PathTransitive(a[1..], b[1..], c[1..]);
      } else if a[0] != b[0] && b[0] != c[0] {
        LexTransitive(a[0], b[0], c[0]);
        LexTrichotomy(a[0], c[0]);
      }
    }
  }

  ghost predicate Ascending(paths: seq<Path>) {
    forall i, j :: 0 <= i < j < |paths| ==> PathLess(paths[i], paths[j])
  }

  /** The least of the paths. */
  method FirstPath(paths: set<Path>) returns (first: Path)
    requires paths != {}
    ensures first in paths && forall p :: p in paths - {first} ==> PathLess(first, p)
  {
    first := AnyOf(paths);
    var pending := paths - {first};
    while pending != {}
      invariant pending <= paths - {first} && first in paths
      invariant forall p :: p in paths - {first} && p !in pending ==> PathLess(first, p)
    {
      var p := AnyOf(pending);
      PathTrichotomy(p, first);
      pending := pending - {p};
      if PathLess(p, first) {
        forall q | q in paths - {first} && q !in pending && q != p ensures PathLess(p, q) { PathTransitive(p, first, q); }
        first := p;
      }
    }
  }

  method Sorted(paths: set<Path>) returns (sorted: seq<Path>)
    ensures Ascending(sorted) && forall p :: p in sorted <==> p in paths
  {
    sorted := [];
    var pending := paths;
    while pending != {}
      invariant pending <= paths && Ascending(sorted)
      invariant forall p :: p in sorted <==> p in paths - pending
      invariant forall p, q :: p in sorted && q in pending ==> PathLess(p, q)
    {
      var first := FirstPath(pending);
      pending := pending - {first};
      sorted := sorted + [first];
    }
  }

  datatype Output = Output(path: Path, content: string)

  /** The keys of a dictionary differ. */
  ghost predicate Distinct(outputs: seq<Output>) {
    forall i, j :: 0 <= i < j < |outputs| ==> outputs[i].path != outputs[j].path
  }

  predicate Generated(path: Path) {
    GENERATED_ROOT <= path
  }

  /** `read_text` translates every line ending to a line feed. */
  function ReadText(raw: string): (text: string)
    ensures '\r' !in text
    ensures text == raw <==> '\r' !in raw
  {
    if raw == "" then ""
    else if raw[0] != '\r' then
      assert raw == [raw[0]] + raw[1..];
      [raw[0]] + ReadText(raw[1..])
    else
      "\n" + ReadText(if |raw| > 1 && raw[1] == '\n' then raw[2..] else raw[1..])
  }

  predicate Contains(text: string, part: string) {
    part <= text || (text != "" && Contains(text[1..], part))
  }

  /** A Markdown file under the generated root that carries the generator's marker in its head. */
  predicate Managed(path: Path, raw: string) {
    var text := ReadText(raw);
    && GENERATED_ROOT < path
    && |path[|path| - 1]| >= 3 && path[|path| - 1][|path[|path| - 1]| - 3..] == ".md"
    && Contains(if |text| > 512 then text[..512] else text, MARKER)
  }

  /** The managed files that no output claims. */
  function Stale(files: map<Path, string>, outputs: seq<Output>): set<Path> {
    set p | p in files && Managed(p, files[p]) && !(exists o :: o in outputs && o.path == p && Generated(p))
  }

  predicate Current(files: map<Path, string>, o: Output) {
    o.path in files && ReadText(files[o.path]) == o.content
  }

  /** The outputs that differ from what the vault holds, in order. */
  function Changed(files: map<Path, string>, outputs: seq<Output>): seq<Path> {
    if outputs == [] then []
    else
      var last := outputs[|outputs| - 1];
      Changed(files, outputs[..|outputs| - 1]) + if Current(files, last) then [] else [last.path]
  }

  function Written(files: map<Path, string>, outputs: seq<Output>): map<Path, string> {
    if outputs == [] then files
    else
      var last := outputs[|outputs| - 1];
      var before := Written(files, outputs[..|outputs| - 1]);
      if Current(files, last) then before else before[last.path := last.content]
  }

  /** The vault after a sync that writes. */
  function Synced(files: map<Path, string>, outputs: seq<Output>): map<Path, string> {
    Written(files, outputs) - Stale(files, outputs)
  }

  class Vault {
    var files: map<Path, string>

    constructor (files: map<Path, string>)
      ensures this.files == files
    {
      this.files := files;
    }

    method SyncOutputs(outputs: seq<Output>, check: bool, dryRun: bool) returns (changed: seq<Path>, stale: seq<Path>)
      requires Distinct(outputs)
      modifies this
      ensures changed == Changed(old(files), outputs)
      ensures Ascending(stale) && forall p :: p in stale <==> p in Stale(old(files), outputs)
      ensures files == if check || dryRun then old(files) else Synced(old(files), outputs)
    {
      ghost var before := files;
      stale := Sorted(Stale(files, outputs));
      changed := [];
      var k := 0;
      while k < |outputs|
        invariant 0 <= k <= |outputs|
        invariant changed == Changed(before, outputs[..k])
        invariant files == if check || dryRun then before else Written(before, outputs[..k])
      {
        var o := outputs[k];
        assert outputs[..k + 1][..k] == outputs[..k];
        assert Current(files, o) == Current(before, o) by { WrittenElsewhere(before, outputs[..k], o.path); }
        if !Current(files, o) {
          changed := changed + [o.path];
          if !check && !dryRun { files := files[o.path := o.content]; }
        }
        k := k + 1;
      }
      assert outputs[..k] == outputs;
      if !check && !dryRun {
        assert Stale(before, outputs) == set p | p in stale;
        Unlink(stale);
      }
    }

    method Unlink(paths: seq<Path>)
      modifies this
      ensures files == old(files) - set p | p in paths
    {
      for k := 0 to |paths|
        invariant files == old(files) - set p | p in paths[..k]
      {
        assert paths[..k + 1] == paths[..k] + [paths[k]];
        files := files - {paths[k]};
      }
      assert paths[..|paths|] == paths;
    }
  }

  lemma {:induction false} WrittenElsewhere(files: map<Path, string>, outputs: seq<Output>, p: Path)
    requires forall o :: o in outputs ==> o.path != p
    ensures p in Written(files, outputs) <==> p in files
    ensures p in files ==> Written(files, outputs)[p] == files[p]
  {
    if outputs != [] {
      assert outputs[|outputs| - 1] in outputs;
      WrittenElsewhere(files, outputs[..|outputs| - 1], p);
    }
  }

  lemma {:induction false} WrittenHere(files: map<Path, string>, outputs: seq<Output>, k: nat)
    requires Distinct(outputs) && k < |outputs|
    ensures outputs[k].path in Written(files, outputs)
    ensures Written(files, outputs)[outputs[k].path]
            == if Current(files, outputs[k]) then files[outputs[k].path] else outputs[k].content
  {
    var front := outputs[..|outputs| - 1];
    if k < |front| { WrittenHere(files, front, k); } else { WrittenElsewhere(files, front, outputs[k].path); }
  }

  lemma {:induction false} ChangedMeans(files: map<Path, string>, outputs: seq<Output>, p: Path)
    ensures p in Changed(files, outputs) <==> exists o :: o in outputs && o.path == p && !Current(files, o)
  {
    if outputs != [] {
      var front := outputs[..|outputs| - 1];
      assert outputs == front + [outputs[|outputs| - 1]];
      ChangedMeans(files, front, p);
    }
  }

  // --------------------------------------------------------------- the sync

  /** Every output is in the synced vault, under its own content or under what already read as it. */
  lemma OutputsArrive(files: map<Path, string>, outputs: seq<Output>, o: Output)
    requires Distinct(outputs) && o in outputs
    ensures o.path in Synced(files, outputs)
    ensures Synced(files, outputs)[o.path] == if Current(files, o) then files[o.path] else o.content
  {
    var k :| 0 <= k < |outputs| && outputs[k] == o;
    WrittenHere(files, outputs, k);
    assert o.path !in Stale(files, outputs);
  }

  /** A file that is no output is removed if it is managed, and left alone otherwise. */
  lemma OthersStay(files: map<Path, string>, outputs: seq<Output>, p: Path)
    requires Distinct(outputs) && forall o :: o in outputs ==> o.path != p
    ensures p in Synced(files, outputs) <==> p in files && !Managed(p, files[p])
    ensures p in Synced(files, outputs) ==> Synced(files, outputs)[p] == files[p]
  {
    WrittenElsewhere(files, outputs, p);
  }

  /** After a sync nothing is stale. */
  lemma NothingStale(files: map<Path, string>, outputs: seq<Output>)
    requires Distinct(outputs)
    ensures Stale(Synced(files, outputs), outputs) == {}
  {
    var after := Synced(files, outputs);
    forall p | p in after ensures p !in Stale(after, outputs) {
      if forall o :: o in outputs ==> o.path != p { OthersStay(files, outputs, p); }
    }
  }

  /** After a sync an output reads as its content exactly when that holds no carriage return. */
  lemma OutputIsCurrent(files: map<Path, string>, outputs: seq<Output>, o: Output)
    requires Distinct(outputs) && o in outputs
    ensures Current(Synced(files, outputs), o) <==> '\r' !in o.content
  {
    OutputsArrive(files, outputs, o);
  }

  /** A second run reports nothing stale, and nothing changed exactly when no content holds a
      carriage return. */
  lemma Converges(files: map<Path, string>, outputs: seq<Output>)
    requires Distinct(outputs)
    ensures Changed(Synced(files, outputs), outputs) == [] <==> forall o :: o in outputs ==> '\r' !in o.content
    ensures Stale(Synced(files, outputs), outputs) == {}
  {
    NothingStale(files, outputs);
    var after := Synced(files, outputs);
    forall o | o in outputs
      ensures o.path in Changed(after, outputs) <==> '\r' in o.content
    {
      OutputIsCurrent(files, outputs, o);
      ChangedMeans(after, outputs, o.path);
      assert forall o' :: o' in outputs && o'.path == o.path ==> o' == o;
    }
    if Changed(after, outputs) != [] {
      var p := Changed(after, outputs)[0];
      ChangedMeans(after, outputs, p);
    }
  }

  /** One such output, on any store: it is reported by the second run, and by every later one. */
  lemma CarriageReturnRepeats(files: map<Path, string>)
    ensures var outputs := [Output(["note.md"], "one\r\ntwo")];
            Changed(Synced(files, outputs), outputs) == [["note.md"]]
  {
    var o := Output(["note.md"], "one\r\ntwo");
    assert o in [o] && o.content[3] == '\r';
    OutputIsCurrent(files, [o], o);
    assert [o][..0] == [];
  }

  /** Syncing again changes nothing, whatever the contents. */
  lemma SyncIsIdempotent(files: map<Path, string>, outputs: seq<Output>)
    requires Distinct(outputs)
    ensures Synced(Synced(files, outputs), outputs) == Synced(files, outputs)
  {
    var once := Synced(files, outputs);
    var twice := Synced(once, outputs);
    NothingStale(files, outputs);
    forall p ensures p in twice <==> p in once
             ensures p in once ==> p in twice && twice[p] == once[p]
    {
      if o :| o in outputs && o.path == p {
        OutputsArrive(files, outputs, o);
        OutputsArrive(once, outputs, o);
        OutputIsCurrent(files, outputs, o);
      } else {
        WrittenElsewhere(once, outputs, p);
      }
    }
  }
}
