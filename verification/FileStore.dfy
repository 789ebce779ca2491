/**
 The file store: a cache over one directory per store. How each file operation ends is given
 with the call.
 */
module FileStore {
  import opened Prelude

  type Files = map<string, Bytes>

  /** The store that is open, the cache, and the directories on disk. */
  datatype Fs = Fs(store: string, cache: Files, disk: map<string, Files>)

  datatype IoError = AlreadyExists | NotFound | Other

  /** How creating and writing a file ends; a failed write leaves a file cut short. */
  datatype WriteResult = Written | CreateFailed | WriteFailed(part: Bytes)

  datatype Op =
    | Open(client: string, server: string)
    | Close
    | Put(key: string, packet: Bytes, write: WriteResult)
    | Contains(key: string, readOk: bool)
    | Get(key: string, readOk: bool)
    | Remove(key: string, deleteOk: bool)
    | Keys(listing: Option<seq<string>>, readable: set<string>)
    | Clear(listing: Option<seq<string>>, deletable: set<string>)

  datatype Answer = Done | Found(yes: bool) | Value(packet: Bytes) | Listed(keys: set<string>) | Failed(error: IoError)

  /** `PathBuf::new()`. */
  const NO_STORE := ""

  function StoreName(client: string, server: string): string { client + "@" + server }

  function FilesOf(disk: map<string, Files>, store: string): Files {
    if store in disk then disk[store] else map[]
  }

  function FilesIn(fs: Fs): Files { FilesOf(fs.disk, fs.store) }

  function SetFiles(disk: map<string, Files>, store: string, files: Files): map<string, Files> {
    if files == FilesOf(disk, store) then disk else disk[store := files]
  }

  function WithFiles(fs: Fs, files: Files): Fs { fs.(disk := SetFiles(fs.disk, fs.store, files)) }

  // ------------------------------------------------------------ what the operations do

  function FileAfter(files: Files, key: string, packet: Bytes, write: WriteResult): Files {
    match write
    case Written => files[key := packet]
    case CreateFailed => files
    case WriteFailed(part) => files[key := part]
  }

  /** The cache is updated first, and stays so if the file cannot be written. */
  function PutStep(fs: Fs, key: string, packet: Bytes, write: WriteResult): (Fs, Answer) {
    if key in fs.cache then (fs, Failed(AlreadyExists))
    else
      (WithFiles(fs.(cache := fs.cache[key := packet]), FileAfter(FilesIn(fs), key, packet, write)),
       if write.Written? then Done else Failed(Other))
  }

  function ContainsStep(fs: Fs, key: string, readOk: bool): (Fs, Answer) {
    if key in fs.cache then (fs, Found(true))
    else if key !in FilesIn(fs) then (fs, Found(false))
    else if !readOk then (fs, Failed(Other))
    else (fs.(cache := fs.cache[key := FilesIn(fs)[key]]), Found(true))
  }

  function GetStep(fs: Fs, key: string, readOk: bool): (Fs, Answer) {
    if key in fs.cache then (fs, Value(fs.cache[key]))
    else if key !in FilesIn(fs) then (fs, Failed(NotFound))
    else if !readOk then (fs, Failed(Other))
    else (fs.(cache := fs.cache[key := FilesIn(fs)[key]]), Value(FilesIn(fs)[key]))
  }

  /** Only what is in the cache can be removed; the cache forgets it even if the file stays. */
  function RemoveStep(fs: Fs, key: string, deleteOk: bool): (Fs, Answer) {
    if key !in fs.cache then (fs, Failed(AlreadyExists))
    else
      var fs1 := fs.(cache := fs.cache - {key});
      if key in FilesIn(fs) && deleteOk then (WithFiles(fs1, FilesIn(fs) - {key}), Done) else (fs1, Failed(Other))
  }

  /** Reads the listed files into the cache, up to the first that fails. */
  function Fill(cache: Files, files: Files, listing: seq<string>, readable: set<string>): (Files, bool)
    decreases |listing|
  {
    if listing == [] then (cache, true)
    else if listing[0] in files && listing[0] in readable
    then Fill(cache[listing[0] := files[listing[0]]], files, listing[1..], readable)
    else (cache, false)
  }

  function KeysStep(fs: Fs, listing: Option<seq<string>>, readable: set<string>): (Fs, Answer) {
    if fs.cache != map[] then (fs, Listed(fs.cache.Keys))
    else if listing.None? then (fs, Failed(Other))
    else
      var (cache, ok) := Fill(fs.cache, FilesIn(fs), listing.value, readable);
      (fs.(cache := cache), if ok then Listed(cache.Keys) else Failed(Other))
  }

  /** Deletes the listed files, up to the first that fails. */
  function Sweep(files: Files, listing: seq<string>, deletable: set<string>): (Files, bool)
    decreases |listing|
  {
    if listing == [] then (files, true)
    else if listing[0] in files && listing[0] in deletable then Sweep(files - {listing[0]}, listing[1..], deletable)
    else (files, false)
  }

  function ClearStep(fs: Fs, listing: Option<seq<string>>, deletable: set<string>): (Fs, Answer) {
    var fs1 := fs.(cache := map[]);
    if listing.None? then (fs1, Failed(Other))
    else
      var (files, ok) := Sweep(FilesIn(fs), listing.value, deletable);
      (WithFiles(fs1, files), if ok then Done else Failed(Other))
  }

  function Step(fs: Fs, op: Op): (Fs, Answer) {
    match op
    case Open(client, server) => (fs.(store := StoreName(client, server)), Done)
    case Close => (fs.(store := NO_STORE, cache := map[]), Done)
    case Put(key, packet, write) => PutStep(fs, key, packet, write)
    case Contains(key, ok) => ContainsStep(fs, key, ok)
    case Get(key, ok) => GetStep(fs, key, ok)
    case Remove(key, ok) => RemoveStep(fs, key, ok)
    case Keys(listing, readable) => KeysStep(fs, listing, readable)
    case Clear(listing, deletable) => ClearStep(fs, listing, deletable)
  }

  function Run(fs: Fs, ops: seq<Op>): (Fs, seq<Answer>)
    decreases |ops|
  {
    if ops == [] then (fs, [])
    else
      var (fs1, a) := Step(fs, ops[0]);
      var (fs2, rest) := Run(fs1, ops[1..]);
      (fs2, [a] + rest)
  }

  // ------------------------------------------------------------ the object

  class FsPersistence {
    var currentStore: string
    var cache: Files
    var disk: map<string, Files>

    function View(): Fs
      reads this
    {
      Fs(currentStore, cache, disk)
    }

    constructor (onDisk: map<string, Files>)
      ensures View() == Fs(NO_STORE, map[], onDisk)
    {
      currentStore, cache, disk := NO_STORE, map[], onDisk;
    }

    method Open(client: string, server: string) returns (a: Answer)
      modifies this
      ensures (View(), a) == Step(old(View()), Op.Open(client, server))
    {
      currentStore := StoreName(client, server);
      return Done;
    }

    method Close() returns (a: Answer)
      modifies this
      ensures (View(), a) == Step(old(View()), Op.Close)
    {
      cache := map[];
      currentStore := NO_STORE;
      return Done;
    }

    /** The file `key` of the open store gets new contents, or is deleted. */
    method SetFile(files: Files)
      modifies this`disk
      ensures View() == WithFiles(old(View()), files)
    {
      disk := SetFiles(disk, currentStore, files);
    }

    method Put(key: string, packet: Bytes, write: WriteResult) returns (a: Answer)
      modifies this
      ensures (View(), a) == PutStep(old(View()), key, packet, write)
      ensures old(Within(View()) && Succeeds(View(), Op.Put(key, packet, write))) ==> Within(View())
      ensures old(Synced(View()) && Succeeds(View(), Op.Put(key, packet, write))) ==> Synced(View()) && (cache, a) == Plain(old(cache), Op.Put(key, packet, write))
    {
      ServesWell(View(), Op.Put(key, packet, write));
      if key in cache { return Failed(AlreadyExists); }
      cache := cache[key := packet];
      SetFile(FileAfter(FilesIn(View()), key, packet, write));
      return if write.Written? then Done else Failed(Other);
    }

    method Contains(key: string, readOk: bool) returns (a: Answer)
      modifies this
      ensures (View(), a) == ContainsStep(old(View()), key, readOk)
      ensures old(Within(View()) && Succeeds(View(), Op.Contains(key, readOk))) ==> Within(View())
      ensures old(Synced(View()) && Succeeds(View(), Op.Contains(key, readOk))) ==> Synced(View()) && (cache, a) == Plain(old(cache), Op.Contains(key, readOk))
    {
      ServesWell(View(), Op.Contains(key, readOk));
      if key in cache { return Found(true); }
      var files := FilesIn(View());
      if key !in files { return Found(false); }
      if !readOk { return Failed(Other); }
      cache := cache[key := files[key]];
      return Found(true);
    }

    method Get(key: string, readOk: bool) returns (a: Answer)
      modifies this
      ensures (View(), a) == GetStep(old(View()), key, readOk)
      ensures old(Within(View()) && Succeeds(View(), Op.Get(key, readOk))) ==> Within(View())
      ensures old(Synced(View()) && Succeeds(View(), Op.Get(key, readOk))) ==> Synced(View()) && (cache, a) == Plain(old(cache), Op.Get(key, readOk))
    {
      ServesWell(View(), Op.Get(key, readOk));
      if key in cache { return Value(cache[key]); }
      var files := FilesIn(View());
      if key !in files { return Failed(NotFound); }
      if !readOk { return Failed(Other); }
      cache := cache[key := files[key]];
      return Value(files[key]);
    }

    method Remove(key: string, deleteOk: bool) returns (a: Answer)
      modifies this
      ensures (View(), a) == RemoveStep(old(View()), key, deleteOk)
      ensures old(Within(View()) && Succeeds(View(), Op.Remove(key, deleteOk))) ==> Within(View())
      ensures old(Synced(View()) && Succeeds(View(), Op.Remove(key, deleteOk))) ==> Synced(View()) && (cache, a) == Plain(old(cache), Op.Remove(key, deleteOk))
    {
      ServesWell(View(), Op.Remove(key, deleteOk));
      if key !in cache { return Failed(AlreadyExists); }
      cache := cache - {key};
      var files := FilesIn(View());
      if key !in files || !deleteOk { return Failed(Other); }
      SetFile(files - {key});
      return Done;
    }

    method Keys(listing: Option<seq<string>>, readable: set<string>) returns (a: Answer)
      modifies this
      ensures (View(), a) == KeysStep(old(View()), listing, readable)
      ensures old(Within(View()) && Succeeds(View(), Op.Keys(listing, readable))) ==> Within(View())
      ensures old(Synced(View()) && Succeeds(View(), Op.Keys(listing, readable))) ==> Synced(View()) && (cache, a) == Plain(old(cache), Op.Keys(listing, readable))
    {
      ServesWell(View(), Op.Keys(listing, readable));
      if cache != map[] { return Listed(cache.Keys); }
      if listing.None? { return Failed(Other); }
      var files, collect := FilesIn(View()), listing.value;
      for i := 0 to |collect|
        invariant View() == old(View()).(cache := cache)
        invariant Fill(cache, files, collect[i..], readable) == Fill(old(cache), files, collect, readable)
      {
        var path := collect[i];
        if path !in files || path !in readable { return Failed(Other); }
        cache := cache[path := files[path]];
      }
      return Listed(cache.Keys);
    }

    method Clear(listing: Option<seq<string>>, deletable: set<string>) returns (a: Answer)
      modifies this
      ensures (View(), a) == ClearStep(old(View()), listing, deletable)
      ensures old(Within(View()) && Succeeds(View(), Op.Clear(listing, deletable))) ==> Within(View())
      ensures old(Synced(View()) && Succeeds(View(), Op.Clear(listing, deletable))) ==> Synced(View()) && (cache, a) == Plain(old(cache), Op.Clear(listing, deletable))
    {
      ServesWell(View(), Op.Clear(listing, deletable));
      cache := map[];
      if listing.None? { return Failed(Other); }
      var files, entries, ok, i := FilesIn(View()), listing.value, true, 0;
      while i < |entries| && ok
        invariant i <= |entries|
        invariant ok ==> Sweep(files, entries[i..], deletable) == Sweep(FilesIn(View()), entries, deletable)
        invariant !ok ==> Sweep(FilesIn(View()), entries, deletable) == (files, false)
      {
        ok := entries[i] in files && entries[i] in deletable;
        if ok { files := files - {entries[i]}; }
        i := i + 1;
      }
      SetFile(files);
      return if ok then Done else Failed(Other);
    }
  }

  // ------------------------------------------------------------ a plain map

  predicate OnData(op: Op) { !op.Open? && !op.Close? }

  /** What a plain map would do. */
  function Plain(m: Files, op: Op): (Files, Answer)
    requires OnData(op)
  {
    match op
    case Put(key, packet, _) => if key in m then (m, Failed(AlreadyExists)) else (m[key := packet], Done)
    case Contains(key, _) => (m, Found(key in m))
    case Get(key, _) => (m, if key in m then Value(m[key]) else Failed(NotFound))
    case Remove(key, _) => if key in m then (m - {key}, Done) else (m, Failed(AlreadyExists))
    case Keys(_, _) => (m, Listed(m.Keys))
    case Clear(_, _) => (map[], Done)
  }

  function PlainRun(m: Files, ops: seq<Op>): (Files, seq<Answer>)
    requires forall i | 0 <= i < |ops| :: OnData(ops[i])
    decreases |ops|
  {
    if ops == [] then (m, [])
    else
      var (m1, a) := Plain(m, ops[0]);
      var (m2, rest) := PlainRun(m1, ops[1..]);
      (m2, [a] + rest)
  }

  /** The listing names each file once. */
  predicate Lists(listing: Option<seq<string>>, files: Files) {
    && listing.Some?
    && (forall k | k in listing.value :: k in files)
    && (forall k | k in files :: k in listing.value)
    && (forall i, j | 0 <= i < j < |listing.value| :: listing.value[i] != listing.value[j])
  }

  /** The file operations that the call makes succeed. */
  predicate Succeeds(fs: Fs, op: Op) {
    match op
    case Put(_, _, write) => write.Written?
    case Contains(_, ok) => ok
    case Get(_, ok) => ok
    case Remove(_, ok) => ok
    case Keys(listing, readable) => Lists(listing, FilesIn(fs)) && FilesIn(fs).Keys <= readable
    case Clear(listing, deletable) => Lists(listing, FilesIn(fs)) && FilesIn(fs).Keys <= deletable
    case _ => true
  }

  predicate AllSucceed(fs: Fs, ops: seq<Op>)
    decreases |ops|
  {
    ops == [] || (Succeeds(fs, ops[0]) && AllSucceed(Step(fs, ops[0]).0, ops[1..]))
  }

  /** What is cached is what is on disk. */
  predicate Within(fs: Fs) { forall k | k in fs.cache :: k in FilesIn(fs) && FilesIn(fs)[k] == fs.cache[k] }

  /** All that is on disk is cached, too. */
  predicate Synced(fs: Fs) { fs.cache == FilesIn(fs) }

  lemma {:induction false} FillAll(cache: Files, files: Files, listing: seq<string>, readable: set<string>)
    requires files.Keys <= readable && forall i | 0 <= i < |listing| :: listing[i] in files
    ensures var (c, ok) := Fill(cache, files, listing, readable);
      && ok && c.Keys == cache.Keys + (set k | k in listing)
      && forall k | k in c :: c[k] == if k in listing then files[k] else cache[k]
    decreases |listing|
  {
    if listing != [] {
      forall i | 0 <= i < |listing[1..]| ensures listing[1..][i] in files { assert listing[i + 1] in files; }
      FillAll(cache[listing[0] := files[listing[0]]], files, listing[1..], readable);
      assert listing == [listing[0]] + listing[1..];
    }
  }

  lemma {:induction false} SweepAll(files: Files, listing: seq<string>, deletable: set<string>)
    requires Lists(Some(listing), files) && files.Keys <= deletable
    ensures Sweep(files, listing, deletable) == (map[], true)
    decreases |listing|
  {
    if listing == [] {
      forall k ensures k !in files {}
      assert files == map[];
    } else {
      var rest := listing[1..];
      assert listing == [listing[0]] + rest;
      forall k ensures k in rest <==> k in files - {listing[0]} {
        if k in rest {
          var i :| 0 <= i < |rest| && rest[i] == k;
          assert listing[i + 1] == k;
        }
      }
      forall i, j | 0 <= i < j < |rest| ensures rest[i] != rest[j] { assert listing[i + 1] != listing[j + 1]; }
      assert Lists(Some(rest), files - {listing[0]});
      SweepAll(files - {listing[0]}, rest, deletable);
    }
  }

  lemma KeysFill(fs: Fs, listing: Option<seq<string>>, readable: set<string>)
    requires Lists(listing, FilesIn(fs)) && FilesIn(fs).Keys <= readable && fs.cache == map[]
    ensures KeysStep(fs, listing, readable) == (fs.(cache := FilesIn(fs)), Listed(FilesIn(fs).Keys))
  {
    var l := listing.value;
    forall i | 0 <= i < |l| ensures l[i] in FilesIn(fs) { assert l[i] in l; }
    FillAll(fs.cache, FilesIn(fs), l, readable);
    assert Fill(fs.cache, FilesIn(fs), l, readable).0 == FilesIn(fs);
  }

  // ------------------------------------------------------------ main results

  /** The call does to the files, and answers, what a plain map with those files would. */
  predicate LikePlain(fs: Fs, op: Op)
    requires OnData(op)
  {
    var (fs', a) := Step(fs, op);
    (FilesIn(fs'), a) == Plain(FilesIn(fs), op)
  }

  /** What the call depends on of the files is in the cache. */
  predicate Known(fs: Fs, op: Op) {
    match op
    case Put(key, _, _) => key in FilesIn(fs) ==> key in fs.cache
    case Remove(key, _) => key in FilesIn(fs) ==> key in fs.cache
    case Keys(_, _) => fs.cache == map[] || Synced(fs)
    case _ => true
  }

  lemma ClearSweeps(fs: Fs, listing: Option<seq<string>>, deletable: set<string>)
    requires Lists(listing, FilesIn(fs)) && FilesIn(fs).Keys <= deletable
    ensures ClearStep(fs, listing, deletable) == (WithFiles(fs.(cache := map[]), map[]), Done)
  {
    SweepAll(FilesIn(fs), listing.value, deletable);
  }

  /**
   With a cache that tells the truth, a call is like one on a plain map if and only if what it
   depends on is in the cache.
   */
  lemma LikePlainIff(fs: Fs, op: Op)
    requires Within(fs) && OnData(op) && Succeeds(fs, op)
    ensures LikePlain(fs, op) <==> Known(fs, op)
    ensures Within(Step(fs, op).0)
  {
    match op
    case Keys(listing, readable) =>
      if fs.cache == map[] {
        KeysFill(fs, listing, readable);
      } else if fs.cache.Keys == FilesIn(fs).Keys {
        assert fs.cache == FilesIn(fs);
      }
    case Clear(listing, deletable) => ClearSweeps(fs, listing, deletable);
    case _ =>
  }

  /** Each open follows the beginning or a close. */
  predicate OpensInTurn(ops: seq<Op>) {
    forall i | 0 < i < |ops| && ops[i].Open? :: ops[i - 1].Close?
  }

  /** Then the cache tells the truth throughout, whichever stores are opened. */
  lemma {:induction false} WithinRun(fs: Fs, ops: seq<Op>)
    requires Within(fs) && (ops != [] && ops[0].Open? ==> fs.cache == map[])
    requires OpensInTurn(ops) && AllSucceed(fs, ops)
    ensures Within(Run(fs, ops).0)
    decreases |ops|
  {
    if ops != [] {
      if OnData(ops[0]) { LikePlainIff(fs, ops[0]); }
      forall i | 0 < i < |ops[1..]| && ops[1..][i].Open? ensures ops[1..][i - 1].Close? { assert ops[i + 1].Open?; }
      if |ops| > 1 && ops[1].Open? { assert ops[0].Close?; }
      WithinRun(Step(fs, ops[0]).0, ops[1..]);
    }
  }

  lemma SyncedStep(fs: Fs, op: Op)
    requires Synced(fs) && OnData(op) && Succeeds(fs, op)
    ensures Synced(Step(fs, op).0) && LikePlain(fs, op) && Step(fs, op).0.store == fs.store
  {
    match op
    case Keys(listing, readable) => if fs.cache == map[] { KeysFill(fs, listing, readable); }
    case Clear(listing, deletable) => ClearSweeps(fs, listing, deletable);
    case _ =>
  }

  /** A call that succeeds keeps the cache truthful, and equal to the disk if it was. */
  lemma ServesWell(fs: Fs, op: Op)
    requires OnData(op)
    ensures Within(fs) && Succeeds(fs, op) ==> Within(Step(fs, op).0)
    ensures Synced(fs) && Succeeds(fs, op) ==>
      var (fs', a) := Step(fs, op); Synced(fs') && (fs'.cache, a) == Plain(fs.cache, op)
  {
    if Within(fs) && Succeeds(fs, op) { LikePlainIff(fs, op); }
    if Synced(fs) && Succeeds(fs, op) { SyncedStep(fs, op); }
  }

  /** Once the cache equals the disk it stays so, and all calls together are like a plain map. */
  lemma {:induction false} SyncedRun(fs: Fs, ops: seq<Op>)
    requires Synced(fs) && AllSucceed(fs, ops) && forall i | 0 <= i < |ops| :: OnData(ops[i])
    ensures var (fs', answers) := Run(fs, ops);
      Synced(fs') && fs'.store == fs.store && (fs'.cache, answers) == PlainRun(fs.cache, ops)
    decreases |ops|
  {
    if ops != [] {
      assert OnData(ops[0]);
      SyncedStep(fs, ops[0]);
      forall i | 0 <= i < |ops[1..]| ensures OnData(ops[1..][i]) { assert OnData(ops[i + 1]); }
      SyncedRun(Step(fs, ops[0]).0, ops[1..]);
    }
  }

  /** No call, whatever fails, touches the files of a store that is not open. */
  lemma OthersKept(fs: Fs, op: Op, other: string)
    requires other != fs.store
    ensures FilesOf(Step(fs, op).0.disk, other) == FilesOf(fs.disk, other)
  {
  }

  /** The store is not open at any step of the run. */
  predicate Avoids(fs: Fs, ops: seq<Op>, store: string)
    decreases |ops|
  {
    fs.store != store && (ops == [] || Avoids(Step(fs, ops[0]).0, ops[1..], store))
  }

  lemma {:induction false} OthersKeptRun(fs: Fs, ops: seq<Op>, other: string)
    requires Avoids(fs, ops, other)
    ensures FilesOf(Run(fs, ops).0.disk, other) == FilesOf(fs.disk, other)
    decreases |ops|
  {
    if ops != [] {
      OthersKept(fs, ops[0], other);
      OthersKeptRun(Step(fs, ops[0]).0, ops[1..], other);
    }
  }

  /** The store is closed, other things are done, and it is opened again after the last close. */
  function Reopened(fs: Fs, between: seq<Op>, client: string, server: string): Fs {
    Step(Step(Run(Step(fs, Close).0, between).0, Close).0, Open(client, server)).0
  }

  /** A store that is closed, and opened and listed again later, holds the same map. */
  lemma ReopenKeeps(fs: Fs, between: seq<Op>, client: string, server: string, listing: Option<seq<string>>, readable: set<string>)
    requires Synced(fs) && fs.store == StoreName(client, server)
    requires Avoids(Step(fs, Close).0, between, fs.store)
    requires Succeeds(Reopened(fs, between, client, server), Keys(listing, readable))
    ensures var (v, a) := Step(Reopened(fs, between, client, server), Keys(listing, readable));
      Synced(v) && v.cache == fs.cache && a == Listed(fs.cache.Keys)
  {
    OthersKeptRun(Step(fs, Close).0, between, fs.store);
    KeysFill(Reopened(fs, between, client, server), listing, readable);
  }

  /** What reads see: the cache over the files. */
  function Visible(fs: Fs): Files { FilesIn(fs) + fs.cache }

  /** A put that fails leaves what reads see until a close alone exactly if its packet was there already. */
  lemma FailedPutLingers(fs: Fs, key: string, packet: Bytes, write: WriteResult)
    requires PutStep(fs, key, packet, write).1.Failed?
    ensures Visible(PutStep(fs, key, packet, write).0) == Visible(fs) <==>
      key in fs.cache || (key in FilesIn(fs) && FilesIn(fs)[key] == packet)
  {
    var fs' := PutStep(fs, key, packet, write).0;
    if key !in fs.cache {
      assert Visible(fs')[key] == packet;
      if key in FilesIn(fs) && FilesIn(fs)[key] == packet { assert Visible(fs') == Visible(fs); }
    }
  }

  /** Reads see the same, now and after the store was closed. */
  predicate Unharmed(fs: Fs, fs': Fs) { Visible(fs') == Visible(fs) && FilesIn(fs') == FilesIn(fs) }

  /**
   A put that fails harms nothing exactly if it finds its key in the cache, or the very packet on
   disk and does not cut it short.
   */
  lemma FailedPutHarms(fs: Fs, key: string, packet: Bytes, write: WriteResult)
    requires PutStep(fs, key, packet, write).1.Failed?
    ensures Unharmed(fs, PutStep(fs, key, packet, write).0) <==>
      || key in fs.cache
      || (key in FilesIn(fs) && FilesIn(fs)[key] == packet && (write.CreateFailed? || write.part == packet))
  {
    var fs' := PutStep(fs, key, packet, write).0;
    if key !in fs.cache {
      assert Visible(fs')[key] == packet;
      assert FilesIn(fs') == FileAfter(FilesIn(fs), key, packet, write);
      if write.WriteFailed? { assert FilesIn(fs')[key] == write.part; }
      if key in FilesIn(fs) && FilesIn(fs)[key] == packet { assert Visible(fs') == FilesIn(fs') + fs.cache[key := packet]; }
    }
  }

  /** A put is safe against every failure exactly if its key is in the cache, where it is refused. */
  lemma SafePutIff(fs: Fs, key: string, packet: Bytes)
    ensures (forall write: WriteResult | !write.Written? :: Unharmed(fs, PutStep(fs, key, packet, write).0)) <==> key in fs.cache
  {
    if key !in fs.cache {
      var part: Bytes := packet + [0];
      assert part[|packet|] == 0;
      FailedPutHarms(fs, key, packet, WriteFailed(part));
    }
  }

  /** A put of what is on disk already can fail and cut it short; a later session reads the rest. */
  lemma FailedPutCuts(fs: Fs, client: string, server: string, key: string)
    requires fs.store == StoreName(client, server) && key !in fs.cache && key in FilesIn(fs) && FilesIn(fs)[key] == [1, 2]
    ensures var t := PutStep(fs, key, [1, 2], WriteFailed([1])).0;
      && PutStep(fs, key, [1, 2], WriteFailed([1])).1.Failed? && Visible(t) == Visible(fs)
      && GetStep(Step(Step(t, Close).0, Open(client, server)).0, key, true).1 == Value([1])
      && GetStep(Step(Step(fs, Close).0, Open(client, server)).0, key, true).1 == Value([1, 2])
  {
    var t := PutStep(fs, key, [1, 2], WriteFailed([1])).0;
    assert FilesIn(t) == FilesIn(fs)[key := [1]];
    assert Visible(t) == Visible(fs);
  }

  /** Reading a packet that is on disk makes it known, so that it can be removed and not overwritten. */
  lemma ReadMakesKnown(fs: Fs, key: string, packet: Bytes, fs': Fs)
    requires key in FilesIn(fs) && (fs' == GetStep(fs, key, true).0 || fs' == ContainsStep(fs, key, true).0)
    ensures key in fs'.cache && RemoveStep(fs', key, true).1 == Done
    ensures PutStep(fs', key, packet, Written) == (fs', Failed(AlreadyExists))
  {
  }

  // ------------------------------------------------------------ other calls that fail

  /** A read that fails changes nothing. */
  lemma FailedRead(fs: Fs, key: string)
    requires key !in fs.cache && key in FilesIn(fs)
    ensures GetStep(fs, key, false) == (fs, Failed(Other)) && ContainsStep(fs, key, false) == (fs, Failed(Other))
  {
  }

  /** A directory that cannot be listed fails both calls that need it, though a clear has emptied the cache. */
  lemma FailedListing(fs: Fs, names: set<string>)
    ensures fs.cache == map[] ==> KeysStep(fs, None, names) == (fs, Failed(Other))
    ensures ClearStep(fs, None, names) == (fs.(cache := map[]), Failed(Other))
  {
  }

  /** A remove that fails forgets the packet in the cache only, and the next read has it again. */
  lemma FailedRemove(fs: Fs, key: string)
    requires Within(fs) && key in fs.cache
    ensures var (fs', a) := RemoveStep(fs, key, false);
      && a == Failed(Other) && fs'.cache == fs.cache - {key} && fs'.disk == fs.disk
      && GetStep(fs', key, true).1 == Value(fs.cache[key])
  {
  }

  lemma {:induction false} FillStops(cache: Files, files: Files, listing: seq<string>, readable: set<string>)
    requires (forall k | k in listing :: k in files) && (forall k | k in cache :: k in files && files[k] == cache[k])
    ensures var (c, ok) := Fill(cache, files, listing, readable);
      && (forall k | k in c :: k in files && files[k] == c[k] && (k in cache || k in readable))
      && (ok <==> forall k | k in listing :: k in readable)
    decreases |listing|
  {
    if listing != [] {
      assert listing == [listing[0]] + listing[1..];
      if listing[0] in readable { FillStops(cache[listing[0] := files[listing[0]]], files, listing[1..], readable); }
    }
  }

  /**
   A listing that meets a file that cannot be read fails; what was read before is cached, and the
   next listing gives that for all there is.
   */
  lemma FailedKeys(fs: Fs, listing: Option<seq<string>>, readable: set<string>, again: Option<seq<string>>, all: set<string>)
    requires fs.cache == map[] && Lists(listing, FilesIn(fs)) && !(FilesIn(fs).Keys <= readable)
    ensures var (fs', a) := KeysStep(fs, listing, readable);
      && a == Failed(Other) && Within(fs') && fs'.cache.Keys < FilesIn(fs).Keys && fs'.disk == fs.disk
      && (fs'.cache != map[] ==> KeysStep(fs', again, all).1 == Listed(fs'.cache.Keys))
  {
    FillStops(fs.cache, FilesIn(fs), listing.value, readable);
    var k :| k in FilesIn(fs) && k !in readable;
    assert k in listing.value;
  }

  lemma {:induction false} SweepStops(files: Files, listing: seq<string>, deletable: set<string>)
    requires (forall k | k in listing :: k in files) && forall i, j | 0 <= i < j < |listing| :: listing[i] != listing[j]
    ensures var (f, ok) := Sweep(files, listing, deletable);
      && (forall k | k in f :: k in files && f[k] == files[k])
      && (forall k | k in files && k !in deletable :: k in f)
      && (ok <==> forall k | k in listing :: k in deletable)
    decreases |listing|
  {
    if listing != [] && listing[0] in deletable {
      var rest := listing[1..];
      assert listing == [listing[0]] + rest;
      forall k | k in rest ensures k in files - {listing[0]} {
        var i :| 0 <= i < |rest| && rest[i] == k;
        assert listing[i + 1] == k && listing[0] != listing[i + 1];
      }
      forall i, j | 0 <= i < j < |rest| ensures rest[i] != rest[j] { assert listing[i + 1] != listing[j + 1]; }
      SweepStops(files - {listing[0]}, rest, deletable);
    }
  }

  /** A clear that meets a file that cannot be deleted fails with an empty cache, and no file that stays is changed. */
  lemma FailedClear(fs: Fs, listing: Option<seq<string>>, deletable: set<string>)
    requires Lists(listing, FilesIn(fs)) && !(FilesIn(fs).Keys <= deletable)
    ensures var (fs', a) := ClearStep(fs, listing, deletable);
      && a == Failed(Other) && fs'.cache == map[]
      && (forall k | k in FilesIn(fs') :: k in FilesIn(fs) && FilesIn(fs')[k] == FilesIn(fs)[k])
      && (forall k | k in FilesIn(fs) && k !in deletable :: k in FilesIn(fs'))
  {
    SweepStops(FilesIn(fs), listing.value, deletable);
    var k :| k in FilesIn(fs) && k !in deletable;
    assert k in listing.value;
  }

  /** Two sessions share a store exactly if they are the same, or an `@` can be read two ways. */
  lemma SharedStoreIff(c1: string, s1: string, c2: string, s2: string)
    ensures StoreName(c1, s1) == StoreName(c2, s2) <==>
      (c1 == c2 && s1 == s2) || Misread(c1, s1, c2, s2) || Misread(c2, s2, c1, s1)
  {
    var a, b := StoreName(c1, s1), StoreName(c2, s2);
    if a == b {
      if |c1| == |c2| {
        assert c1 == a[..|c1|] && c2 == b[..|c2|] && s1 == a[|c1| + 1..] && s2 == b[|c2| + 1..];
      } else if |c1| < |c2| {
        SameNameMisread(c1, s1, c2, s2);
      } else {
        SameNameMisread(c2, s2, c1, s1);
      }
    }
  }

  /** The client identifier `c2` goes on past `c1` with an `@`, and the server is cut short by as much. */
  predicate Misread(c1: string, s1: string, c2: string, s2: string) {
    && |c1| < |c2| && c2[..|c1|] == c1 && c2[|c1|] == '@' && s1 == c2[|c1| + 1..] + "@" + s2
  }

  lemma SameNameMisread(c1: string, s1: string, c2: string, s2: string)
    requires StoreName(c1, s1) == StoreName(c2, s2) && |c1| < |c2|
    ensures Misread(c1, s1, c2, s2)
  {
    var a := StoreName(c1, s1);
    assert a[..|c1|] == c1 && a[|c1|] == '@' && a[|c1| + 1..] == s1;
    assert a == c2 + ("@" + s2);
    assert c2[..|c1|] == a[..|c1|] && c2[|c1|] == a[|c1|];
    assert a[|c1| + 1..] == c2[|c1| + 1..] + "@" + s2;
  }
}
