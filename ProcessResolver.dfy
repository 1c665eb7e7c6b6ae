/** The process resolver of the runtime security probe: a cache from pid to
    process entries, with parent and child links between the entries, fed
    by `/proc` snapshots and by direct lookups in the kernel's tables. */
module ProcessResolver {
  import opened Common

  // ---------------------------------------------------------------------
  // Inode information: the 8-byte record of the inode_info_cache table
  // ---------------------------------------------------------------------

  datatype InodeInfo = InodeInfo(mountId: uint32, overlayNumLower: int32)

  datatype DecodeError = ErrNotEnoughData

  /** The layout the kernel writes: mount id, then the overlay lower-layer
      count as a two's-complement 32-bit value. */
  function MarshalInodeInfo(info: InodeInfo): (b: seq<byte>)
    ensures |b| == 8
  {
    PutUint32LE(info.mountId) + PutUint32LE(ToUint32(info.overlayNumLower))
  }

  /** `InodeInfo.UnmarshalBinary`: the decoded record and the number of
      bytes read, or ErrNotEnoughData for a buffer shorter than 8 bytes. */
  function UnmarshalInodeInfo(data: seq<byte>): (r: Result<(InodeInfo, nat), DecodeError>)
    ensures r.Err? <==> |data| < 8
    ensures r.Err? ==> r.error == ErrNotEnoughData
    ensures r.Ok? ==> r.value.1 == 8 && MarshalInodeInfo(r.value.0) == data[..8]
  {
    if |data| < 8 then
      Err(ErrNotEnoughData)
    else
      var info := InodeInfo(Uint32LE(data), ToInt32(Uint32LE(data[4..])));
      MarshalsBack(data, info);
      Ok((info, 8))
  }

  lemma MarshalsBack(data: seq<byte>, info: InodeInfo)
    requires |data| >= 8
    requires info == InodeInfo(Uint32LE(data), ToInt32(Uint32LE(data[4..])))
    ensures MarshalInodeInfo(info) == data[..8]
  {
    Uint32Bytes(data);
    Uint32Bytes(data[4..]);
    assert ToUint32(info.overlayNumLower) == Uint32LE(data[4..]);
    assert data[..8] == data[..4] + data[4..][..4];
  }

  /** Decoding what the kernel wrote gives back the record, whatever bytes
      follow it. */
  lemma InodeInfoRoundTrip(info: InodeInfo, rest: seq<byte>)
    ensures UnmarshalInodeInfo(MarshalInodeInfo(info) + rest) == Ok((info, 8))
  {
    var b := MarshalInodeInfo(info) + rest;
    assert b[..4] == PutUint32LE(info.mountId);
    assert b[4..][..4] == PutUint32LE(ToUint32(info.overlayNumLower));
    Uint32RoundTrip(info.mountId);
    Uint32RoundTrip(ToUint32(info.overlayNumLower));
  }

  // ---------------------------------------------------------------------
  // Kernel tables
  // ---------------------------------------------------------------------

  /** The contents of the three kernel tables at the time of a call:
      inode_info_cache (inode -> InodeInfo record), proc_cache (cookie ->
      process record) and pid_cache (pid -> cookie). A missing key is the
      table's "not found". */
  datatype KernelTables = KernelTables(
    inodeInfo: map<seq<byte>, seq<byte>>,
    procCache: map<seq<byte>, seq<byte>>,
    pidCookie: map<seq<byte>, seq<byte>>)

  /** Every pid_cache value starts with the 4-byte cookie. */
  predicate CookiesWellFormed(t: KernelTables)
  {
    forall k :: k in t.pidCookie ==> |t.pidCookie[k]| >= 4
  }

  datatype InodeInfoError = InodeInfoNotFound | InodeInfoUndecodable(DecodeError)

  /** `retrieveInodeInfo`: look the inode up in inode_info_cache and decode
      the record. */
  function RetrieveInodeInfo(inode: uint64, t: KernelTables): (r: Result<InodeInfo, InodeInfoError>)
    ensures PutUint64LE(inode) !in t.inodeInfo ==> r == Err(InodeInfoNotFound)
    ensures r.Ok? <==> PutUint64LE(inode) in t.inodeInfo && |t.inodeInfo[PutUint64LE(inode)]| >= 8
    ensures r.Ok? ==> MarshalInodeInfo(r.value) == t.inodeInfo[PutUint64LE(inode)][..8]
  {
    var inodeb := PutUint64LE(inode);
    if inodeb !in t.inodeInfo then
      Err(InodeInfoNotFound)
    else
      match UnmarshalInodeInfo(t.inodeInfo[inodeb])
      case Err(e) => Err(InodeInfoUndecodable(e))
      case Ok((info, _)) => Ok(info)
  }

  // ---------------------------------------------------------------------
  // Process cache entries
  // ---------------------------------------------------------------------

  /** `time.Time` as the resolver uses it: the zero value, or
      `time.Unix(0, nanos)`. Go's `IsZero` is true only of the zero value
      (January 1 of year 1), never of a `time.Unix(0, n)` for an int64 n. */
  datatype Timestamp = ZeroTime | UnixNano(nanos: int64)
  {
    predicate IsZero() { ZeroTime? }
  }

  datatype FileEvent = FileEvent(inode: uint64, overlayNumLower: int32, mountId: uint32, pathnameStr: string)

  /** The fields of a ProcessCacheEntry other than its lineage links. */
  datatype EntryData = EntryData(
    pid: uint32, tid: uint32, ppid: uint32, uid: uint32, gid: uint32,
    file: FileEvent, containerId: string, execTimestamp: Timestamp,
    comm: string, ttyName: string)

  const ZeroEntry := EntryData(0, 0, 0, 0, 0, FileEvent(0, 0, 0, ""), "", ZeroTime, "", "")

  /** What a placeholder parent knows: its pid and nothing else. */
  function PlaceholderData(ppid: uint32): (d: EntryData)
    ensures d.pid == ppid && d.execTimestamp.IsZero()
  {
    ZeroEntry.(pid := ppid)
  }

  class ProcessCacheEntry {
    var pid: uint32
    var tid: uint32
    var ppid: uint32
    var uid: uint32
    var gid: uint32
    var file: FileEvent
    var containerId: string
    var execTimestamp: Timestamp
    var comm: string
    var ttyName: string
    /** Lineage: the parent entry (not owned) and the child entries. */
    var parent: ProcessCacheEntry?
    var children: seq<ProcessCacheEntry>

    function Data(): EntryData
      reads this
    {
      EntryData(pid, tid, ppid, uid, gid, file, containerId, execTimestamp, comm, ttyName)
    }

    /** `&ProcessCacheEntry{}`. */
    constructor ()
      ensures Data() == ZeroEntry && parent == null && children == []
    {
      pid, tid, ppid, uid, gid := 0, 0, 0, 0, 0;
      file := FileEvent(0, 0, 0, "");
      containerId, execTimestamp, comm, ttyName := "", ZeroTime, "", "";
      parent, children := null, [];
    }

    /** The placeholder parent that insertEntry creates for an uncached
        parent pid, with the new entry as its only child. */
    constructor Placeholder(ppid: uint32, child: ProcessCacheEntry)
      ensures Data() == PlaceholderData(ppid) && parent == null && children == [child]
    {
      pid, tid, this.ppid, uid, gid := ppid, 0, 0, 0, 0;
      file := FileEvent(0, 0, 0, "");
      containerId, execTimestamp, comm, ttyName := "", ZeroTime, "", "";
      parent, children := null, [child];
    }

    /** An entry whose fields a record decoder has filled in. */
    constructor Decoded(d: EntryData)
      ensures Data() == d && parent == null && children == []
    {
      pid, tid, ppid, uid, gid := d.pid, d.tid, d.ppid, d.uid, d.gid;
      file, containerId, execTimestamp := d.file, d.containerId, d.execTimestamp;
      comm, ttyName := d.comm, d.ttyName;
      parent, children := null, [];
    }
  }

  // ---------------------------------------------------------------------
  // Kernel fallback: pid -> cookie -> process record
  // ---------------------------------------------------------------------

  /** The smallest payload (record bytes followed by cookie bytes) that the
      resolver accepts. */
  const MinProcRecordSize := 208

  /** `ProcessCacheEntry.UnmarshalBinary` is not part of this model: it is
      given as a function from the payload to the decoded fields and the
      number of bytes read, or a failure. */
  datatype RecordDecode = Decoded(record: EntryData, read: nat) | DecodeFailed

  /** The caller reads uid and gid from the 8 bytes after `read` without a
      bounds check, so a successful decode must leave 8 bytes. */
  ghost predicate DecoderLeavesCredentials(decode: seq<byte> -> RecordDecode)
  {
    forall d :: decode(d).Decoded? ==> decode(d).read + 8 <= |d|
  }

  /** The payload the two table lookups produce for a pid: the process
      record followed by the pid_cache value, or None on a miss. */
  function KernelPayload(pid: uint32, t: KernelTables): (p: Option<seq<byte>>)
    requires CookiesWellFormed(t)
    ensures p.Some? <==> PutUint32LE(pid) in t.pidCookie && t.pidCookie[PutUint32LE(pid)][..4] in t.procCache
    ensures p.Some? ==> |p.value| >= 4
    ensures p.Some? ==>
              var cookie := t.pidCookie[PutUint32LE(pid)];
              p.value == t.procCache[cookie[..4]] + cookie
  {
    var pidb := PutUint32LE(pid);
    if pidb !in t.pidCookie then None
    else
      var cookieb := t.pidCookie[pidb];
      if cookieb[..4] !in t.procCache then None
      else Some(t.procCache[cookieb[..4]] + cookieb)
  }

  /** What `resolve` builds from the kernel tables, or None for
      "unresolved": either lookup missed, the payload is shorter than
      MinProcRecordSize, or the record does not decode. */
  function KernelLookup(pid: uint32, t: KernelTables, decode: seq<byte> -> RecordDecode): (r: Option<EntryData>)
    requires CookiesWellFormed(t) && DecoderLeavesCredentials(decode)
    ensures KernelPayload(pid, t).None? ==> r.None?
    ensures r.Some? ==> |KernelPayload(pid, t).value| >= MinProcRecordSize
    ensures r.Some? ==> decode(KernelPayload(pid, t).value).Decoded?
    ensures r.Some? ==> r.value.pid == pid && r.value.tid == pid
    ensures r.Some? ==>
              var data := KernelPayload(pid, t).value;
              var read := decode(data).read;
              r.value.uid == Uint32LE(data[read..]) && r.value.gid == Uint32LE(data[read + 4..])
    ensures r.Some? ==>
              var record := decode(KernelPayload(pid, t).value).record;
              r.value.(pid := record.pid, tid := record.tid, uid := record.uid, gid := record.gid) == record
    ensures (&& KernelPayload(pid, t).Some?
             && |KernelPayload(pid, t).value| >= MinProcRecordSize
             && decode(KernelPayload(pid, t).value).Decoded?) ==> r.Some?
  {
    match KernelPayload(pid, t)
    case None => None
    case Some(data) =>
      if |data| < MinProcRecordSize then None
      else
        match decode(data)
        case DecodeFailed => None
        case Decoded(record, read) =>
          Some(record.(uid := Uint32LE(data[read..read + 4]), gid := Uint32LE(data[read + 4..read + 8]),
                       pid := pid, tid := pid))
  }

  /** The fallback for one pid reads only that pid's own pid_cache slot:
      changing the slot of any other pid leaves the outcome as it was. */
  lemma KernelLookupIgnoresOtherPids(pid: uint32, other: uint32, cookie: seq<byte>, t: KernelTables,
                                     decode: seq<byte> -> RecordDecode)
    requires CookiesWellFormed(t) && DecoderLeavesCredentials(decode)
    requires other != pid && |cookie| >= 4
    ensures var t' := t.(pidCookie := t.pidCookie[PutUint32LE(other) := cookie]);
            CookiesWellFormed(t') && KernelLookup(pid, t', decode) == KernelLookup(pid, t, decode)
  {
    PutUint32Injective(pid, other);
    var t' := t.(pidCookie := t.pidCookie[PutUint32LE(other) := cookie]);
    assert CookiesWellFormed(t') by {
      forall k | k in t'.pidCookie ensures |t'.pidCookie[k]| >= 4 {
        if k != PutUint32LE(other) {
          assert t'.pidCookie[k] == t.pidCookie[k];
        }
      }
    }
    var pidb := PutUint32LE(pid);
    assert pidb != PutUint32LE(other);
    assert pidb in t'.pidCookie <==> pidb in t.pidCookie;
    assert pidb in t.pidCookie ==> t'.pidCookie[pidb] == t.pidCookie[pidb];
    assert KernelPayload(pid, t') == KernelPayload(pid, t);
  }

  /** The lookups and decoding of `resolve`: pid -> cookie -> record, as a
      new entry that is not yet linked or cached, or null when the pid does
      not resolve. */
  method EntryFromKernel(pid: uint32, t: KernelTables, decode: seq<byte> -> RecordDecode)
    returns (entry: ProcessCacheEntry?)
    requires CookiesWellFormed(t) && DecoderLeavesCredentials(decode)
    ensures entry == null <==> KernelLookup(pid, t, decode).None?
    ensures entry != null ==>
              && fresh(entry) && entry.Data() == KernelLookup(pid, t, decode).value
              && entry.parent == null && entry.children == []
  {
    ghost var lookup := KernelLookup(pid, t, decode);
    var pidb := PutUint32LE(pid);
    if pidb !in t.pidCookie {
      return null;
    }
    var cookieb := t.pidCookie[pidb];
    // the first 4 bytes are the cookie
    if cookieb[..4] !in t.procCache {
      return null;
    }
    var entryb := t.procCache[cookieb[..4]];
    var data := entryb + cookieb;
    assert KernelPayload(pid, t) == Some(data);
    if |data| < MinProcRecordSize {
      // not enough data
      return null;
    }
    var decoded := decode(data);
    if decoded.DecodeFailed? {
      return null;
    }
    var read := decoded.read;
    entry := new ProcessCacheEntry.Decoded(decoded.record);
    entry.uid := Uint32LE(data[read..read + 4]);
    entry.gid := Uint32LE(data[read + 4..read + 8]);
    entry.pid := pid;
    entry.tid := pid;
    assert entry.Data() == lookup.value;
  }

  // ---------------------------------------------------------------------
  // Enrichment from /proc
  // ---------------------------------------------------------------------

  /** The fields of gopsutil's `FilledProcess` that the resolver reads. */
  datatype FilledProcess = FilledProcess(
    pid: int32, ppid: int32, name: string, createTime: int64,
    uids: seq<int32>, gids: seq<int32>)

  /** `os.Stat` of the executable: an error, a result whose `Sys()` is not a
      `*syscall.Stat_t`, or the inode number. */
  datatype StatResult = StatError | StatNoSysInfo | StatOk(ino: uint64)

  /** The results of the file-system reads made for one pid, fetched
      beforehand: the exe link (None when unreadable), the stat of the
      binary, the container id (None on error) and the controlling tty. */
  datatype ProcReads = ProcReads(execLink: Option<string>, stat: StatResult,
                                 containerId: Option<string>, tty: string)

  datatype EnrichError =
    | ReadlinkFailed
    | BinaryDeleted
    | StatFailed
    | InodeInfoFailed(cause: InodeInfoError)
    | ContainerIdFailed

  /** The exe link of a process whose binary was deleted. */
  const DeletedBinaryLink := "/ (deleted)"

  /** `time.Millisecond` in nanoseconds. */
  const Millisecond := 1_000_000

  /** The entry `enrichEventFromProc` leaves behind, from the entry's fields
      before the call, or the step that failed (the entry is then left as it
      was: every assignment comes after the last check). */
  function Enrich(d: EntryData, proc: FilledProcess, reads_: ProcReads, t: KernelTables): (r: Result<EntryData, EnrichError>)
    ensures reads_.execLink.None? ==> r == Err(ReadlinkFailed)
    ensures reads_.execLink == Some(DeletedBinaryLink) ==> r == Err(BinaryDeleted)
    ensures r.Ok? <==>
              && reads_.execLink.Some? && reads_.execLink.value != DeletedBinaryLink
              && reads_.stat.StatOk? && RetrieveInodeInfo(reads_.stat.ino, t).Ok?
              && reads_.containerId.Some?
  {
    var pid := ToUint32(proc.pid);
    match reads_.execLink
    case None => Err(ReadlinkFailed)
    case Some(pathnameStr) =>
      if pathnameStr == DeletedBinaryLink then Err(BinaryDeleted)
      else
        match reads_.stat
        case StatError => Err(StatFailed)
        case StatNoSysInfo => Err(StatFailed)
        case StatOk(inode) =>
          match RetrieveInodeInfo(inode, t)
          case Err(e) => Err(InodeInfoFailed(e))
          case Ok(info) =>
            match reads_.containerId
            case None => Err(ContainerIdFailed)
            case Some(containerId) =>
              Ok(d.(file := FileEvent(inode, info.overlayNumLower, info.mountId, pathnameStr),
                    containerId := containerId,
                    execTimestamp := UnixNano(ToInt64(proc.createTime * Millisecond)),
                    comm := proc.name,
                    ppid := ToUint32(proc.ppid),
                    ttyName := reads_.tty,
                    pid := pid,
                    tid := pid,
                    uid := if |proc.uids| > 0 then ToUint32(proc.uids[0]) else d.uid,
                    gid := if |proc.gids| > 0 then ToUint32(proc.gids[0]) else d.gid))
  }

  /** What a successful enrichment fills in: identity from the snapshot
      (with `Tid = Pid`), the binary's path and inode with the inode record
      the kernel published for it, the container, a non-zero exec timestamp
      (so the next snapshot pass skips the entry), and uid and gid from the
      snapshot when it has them, kept from before otherwise. */
  lemma EnrichedFields(d: EntryData, proc: FilledProcess, reads_: ProcReads, t: KernelTables)
    requires Enrich(d, proc, reads_, t).Ok?
    ensures var e := Enrich(d, proc, reads_, t).value;
            && e.pid == ToUint32(proc.pid) && e.tid == e.pid && e.ppid == ToUint32(proc.ppid)
            && e.file.pathnameStr == reads_.execLink.value && e.file.inode == reads_.stat.ino
            && MarshalInodeInfo(InodeInfo(e.file.mountId, e.file.overlayNumLower))
                 == t.inodeInfo[PutUint64LE(reads_.stat.ino)][..8]
            && e.containerId == reads_.containerId.value
            && !e.execTimestamp.IsZero()
            && e.comm == proc.name && e.ttyName == reads_.tty
            && e.uid == (if |proc.uids| > 0 then ToUint32(proc.uids[0]) else d.uid)
            && e.gid == (if |proc.gids| > 0 then ToUint32(proc.gids[0]) else d.gid)
  {
  }

  // ---------------------------------------------------------------------
  // The resolver
  // ---------------------------------------------------------------------

  class ProcessResolver {
    /** `entryCache`: pid -> entry. */
    var entryCache: map<uint32, ProcessCacheEntry>

    /** Every cached entry that has a parent is among that parent's
        children. */
    ghost predicate Linked()
      reads *
    {
      forall e :: e in entryCache.Values && e.parent != null ==> e in e.parent.children
    }

    /** `NewProcessResolver`: an empty cache. */
    constructor ()
      ensures entryCache == map[] && Linked()
    {
      entryCache := map[];
    }

    /** The cached entry at `ppid`, if any: the only entry besides the new
        one that insertEntry changes. */
    function ParentSlot(ppid: uint32): set<ProcessCacheEntry>
      reads this
    {
      if ppid in entryCache then {entryCache[ppid]} else {}
    }

    /** The effect of `insertEntry(pid, entry)` on the cache and the lineage,
        given the entry's parent pid and its children before the call. */
    twostate predicate Inserted(pid: uint32, new entry: ProcessCacheEntry, ppid: uint32,
                                entryChildren: seq<ProcessCacheEntry>)
      reads *
    {
      var before := old(entryCache);
      && pid in entryCache && entryCache[pid] == entry
      && (if ppid in before then
            var p := before[ppid];
            && entry.parent == p
            && p.children == (if p == entry then entryChildren else old(p.children)) + [entry]
            && entryCache == before[pid := entry]
            && (p != entry ==>
                  && entry.children == entryChildren
                  && p.parent == old(p.parent) && p.Data() == old(p.Data()))
          else if ppid >= 1 then
            && entry.parent != null && fresh(entry.parent)
            && entry.parent.Data() == PlaceholderData(ppid)
            && entry.parent.parent == null && entry.parent.children == [entry]
            && entryCache == before[ppid := entry.parent][pid := entry]
            && entry.children == entryChildren
          else
            && entry.parent == null
            && entryCache == before[pid := entry]
            && entry.children == entryChildren)
    }

    /** `insertEntry`: link the entry to its parent (creating a placeholder
        parent for an uncached parent pid >= 1), then store it at `pid`,
        replacing whatever was there. */
    method InsertEntry(pid: uint32, entry: ProcessCacheEntry)
      requires Linked()
      modifies this, entry, ParentSlot(entry.ppid)
      ensures Linked()
      ensures Inserted(pid, entry, old(entry.ppid), old(entry.children))
      ensures entry.Data() == old(entry.Data())
    {
      var parent: ProcessCacheEntry? := null;
      if entry.ppid in entryCache {
        parent := entryCache[entry.ppid];
        parent.children := parent.children + [entry];
      } else if entry.ppid >= 1 {
        // the parent may be enriched later
        parent := new ProcessCacheEntry.Placeholder(entry.ppid, entry);
        entryCache := entryCache[entry.ppid := parent];
      }
      entry.parent := parent;
      entryCache := entryCache[pid := entry];
    }

    /** `AddEntry`. */
    method AddEntry(pid: uint32, entry: ProcessCacheEntry)
      requires Linked()
      modifies this, entry, ParentSlot(entry.ppid)
      ensures Linked()
      ensures Inserted(pid, entry, old(entry.ppid), old(entry.children))
      ensures entry.Data() == old(entry.Data())
    {
      InsertEntry(pid, entry);
    }

    /** `DelEntry`: drop the key; no entry, parent or child is touched. */
    method DelEntry(pid: uint32)
      requires Linked()
      modifies this
      ensures Linked()
      ensures entryCache == old(entryCache) - {pid}
    {
      entryCache := entryCache - {pid};
    }

    /** `Get`: a peek at the cache, with no fallback. */
    function Get(pid: uint32): (r: ProcessCacheEntry?)
      reads this
      ensures r != null <==> pid in entryCache
      ensures r != null ==> r == entryCache[pid]
    {
      if pid in entryCache then entryCache[pid] else null
    }

    /** `Resolve`: the cached entry, or else the kernel fallback `resolve`. */
    method Resolve(pid: uint32, t: KernelTables, decode: seq<byte> -> RecordDecode) returns (r: ProcessCacheEntry?)
      requires Linked() && CookiesWellFormed(t) && DecoderLeavesCredentials(decode)
      modifies this, entryCache.Values
      ensures Linked()
      ensures pid in old(entryCache) ==>
                r == old(entryCache[pid]) && entryCache == old(entryCache) && unchanged(old(entryCache.Values))
      ensures pid !in old(entryCache) && KernelLookup(pid, t, decode).None? ==>
                r == null && entryCache == old(entryCache) && unchanged(old(entryCache.Values))
      ensures pid !in old(entryCache) && KernelLookup(pid, t, decode).Some? ==>
                && r != null && fresh(r)
                && r.Data() == KernelLookup(pid, t, decode).value
                && Inserted(pid, r, r.ppid, [])
                && unchanged(old(entryCache.Values) - {r.parent})
    {
      if pid in entryCache {
        return entryCache[pid];
      }
      // fall back to the kernel tables: the perf event may be delayed
      r := ResolveFromKernel(pid, t, decode);
    }

    /** `resolve`: pid -> cookie -> record, and insert what was found. */
    method ResolveFromKernel(pid: uint32, t: KernelTables, decode: seq<byte> -> RecordDecode) returns (r: ProcessCacheEntry?)
      requires Linked() && CookiesWellFormed(t) && DecoderLeavesCredentials(decode)
      modifies this, entryCache.Values
      ensures Linked()
      ensures KernelLookup(pid, t, decode).None? ==>
                r == null && entryCache == old(entryCache) && unchanged(old(entryCache.Values))
      ensures KernelLookup(pid, t, decode).Some? ==>
                && r != null && fresh(r)
                && r.Data() == KernelLookup(pid, t, decode).value
                && Inserted(pid, r, r.ppid, [])
                && unchanged(old(entryCache.Values) - {r.parent})
    {
      var entry := EntryFromKernel(pid, t, decode);
      if entry == null {
        return null;
      }
      InsertEntry(pid, entry);
      r := entry;
    }

    /** `enrichEventFromProc`: fill the entry from the `/proc` reads, field by
        field, once every lookup has succeeded. */
    method EnrichEventFromProc(entry: ProcessCacheEntry, proc: FilledProcess, reads_: ProcReads, t: KernelTables)
      returns (err: Option<EnrichError>)
      modifies entry
      ensures var r := Enrich(old(entry.Data()), proc, reads_, t);
              && (err.None? <==> r.Ok?)
              && (r.Ok? ==> entry.Data() == r.value)
              && (r.Err? ==> err == Some(r.error) && unchanged(entry))
      ensures entry.parent == old(entry.parent) && entry.children == old(entry.children)
    {
      ghost var r := Enrich(entry.Data(), proc, reads_, t);
      var pid := ToUint32(proc.pid);
      if reads_.execLink.None? {
        return Some(ReadlinkFailed);
      }
      var pathnameStr := reads_.execLink.value;
      if pathnameStr == DeletedBinaryLink {
        return Some(BinaryDeleted);
      }
      if !reads_.stat.StatOk? {
        return Some(StatFailed);
      }
      var inode := reads_.stat.ino;
      var info := RetrieveInodeInfo(inode, t);
      if info.Err? {
        return Some(InodeInfoFailed(info.error));
      }
      if reads_.containerId.None? {
        return Some(ContainerIdFailed);
      }
      assert r.Ok?;
      entry.file := FileEvent(inode, info.value.overlayNumLower, info.value.mountId, pathnameStr);
      entry.containerId := reads_.containerId.value;
      entry.execTimestamp := UnixNano(ToInt64(proc.createTime * Millisecond));
      entry.comm := proc.name;
      entry.ppid := ToUint32(proc.ppid);
      entry.ttyName := reads_.tty;
      entry.pid := pid;
      entry.tid := pid;
      if |proc.uids| > 0 {
        entry.uid := ToUint32(proc.uids[0]);
      }
      if |proc.gids| > 0 {
        entry.gid := ToUint32(proc.gids[0]);
      }
      assert entry.Data() == r.value;
      return None;
    }

    /** Whether SyncCache leaves a pid alone without enriching it: pid 0, or
        a cached entry that already has an exec timestamp. */
    predicate SyncSkips(pid: uint32): (r: bool)
      reads this, entryCache.Values
      ensures pid == 0 ==> r
      ensures pid != 0 && pid !in entryCache ==> !r
      // a placeholder parent is never skipped: it is waiting to be enriched
      ensures pid in entryCache && entryCache[pid].Data() == PlaceholderData(pid) ==> (r <==> pid == 0)
    {
      pid == 0 || (pid in entryCache && !entryCache[pid].execTimestamp.IsZero())
    }

    /** The fields SyncCache starts enriching from: the cached entry's (a
        placeholder's, typically), or a new zero entry's. */
    function SyncBase(pid: uint32): (d: EntryData)
      reads this, entryCache.Values
      ensures pid in entryCache ==> d == entryCache[pid].Data()
      ensures pid !in entryCache ==> d == ZeroEntry
      ensures !SyncSkips(pid) ==> d.execTimestamp.IsZero()
    {
      if pid in entryCache then entryCache[pid].Data() else ZeroEntry
    }

    /** `SyncCache`: snapshot one process from `/proc`; true when the cache
        changed. A cached entry is enriched in place, so a placeholder keeps
        its identity and its children. */
    method SyncCache(proc: FilledProcess, reads_: ProcReads, t: KernelTables) returns (changed: bool)
      requires Linked()
      modifies this, entryCache.Values
      ensures Linked()
      ensures var pid := ToUint32(proc.pid);
              changed <==> !old(SyncSkips(pid)) && Enrich(old(SyncBase(pid)), proc, reads_, t).Ok?
      ensures !changed ==> entryCache == old(entryCache) && unchanged(old(entryCache.Values))
      ensures changed ==>
                var pid := ToUint32(proc.pid);
                var cached := pid in old(entryCache);
                && pid in entryCache
                && (cached ==> entryCache[pid] == old(entryCache[pid]))
                && (!cached ==> fresh(entryCache[pid]))
                && entryCache[pid].Data() == Enrich(old(SyncBase(pid)), proc, reads_, t).value
                && Inserted(pid, entryCache[pid], entryCache[pid].ppid,
                            if cached then old(entryCache[pid].children) else [])
                && unchanged(old(entryCache.Values) - {entryCache[pid], entryCache[pid].parent})
    {
      var pid := ToUint32(proc.pid);
      if pid == 0 {
        return false;
      }

      var entry: ProcessCacheEntry;
      if pid in entryCache {
        entry := entryCache[pid];
        if !entry.execTimestamp.IsZero() {
          return false;
        }
      } else {
        entry := new ProcessCacheEntry();
      }

      // update the cache entry
      var err := EnrichEventFromProc(entry, proc, reads_, t);
      if err.Some? {
        return false;
      }

      InsertEntry(pid, entry);
      return true;
    }
  }
}
