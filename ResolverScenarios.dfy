/** Properties of the process resolver that take more than one call, proved
    as client code against the contracts of the resolver's operations. */
module ResolverScenarios {
  import opened Common
  import opened ProcessResolver

  /** A child inserted before its parent gets a placeholder parent; a
      snapshot of the parent then enriches that same object, so the child
      is in the parent's child list exactly once and points at the entry
      now cached for the parent. */
  method PlaceholderAdoptedBySnapshot(child: ProcessCacheEntry, proc: FilledProcess, reads_: ProcReads, t: KernelTables)
    returns (resolver: ProcessResolver, changed: bool)
    requires child.ppid == 10 && ToUint32(proc.pid) == 10 && ToUint32(proc.ppid) != 10
    requires Enrich(PlaceholderData(10), proc, reads_, t).Ok?
    modifies child
    ensures changed
    ensures 10 in resolver.entryCache && 20 in resolver.entryCache
    ensures resolver.entryCache[20] == child
    ensures resolver.entryCache[10].children == [child]
    ensures child.parent == resolver.entryCache[10]
    ensures resolver.entryCache[10].Data() == Enrich(PlaceholderData(10), proc, reads_, t).value
  {
    resolver := new ProcessResolver();
    resolver.AddEntry(20, child);
    var placeholder := resolver.entryCache[10];
    assert placeholder.Data() == PlaceholderData(10);
    assert placeholder.children == [child] && child.parent == placeholder;
    assert !resolver.SyncSkips(10) && resolver.SyncBase(10) == PlaceholderData(10);
    changed := resolver.SyncCache(proc, reads_, t);
    assert resolver.entryCache[10] == placeholder;
  }

  /** AddEntry with a new object for a pid that holds a placeholder replaces
      the placeholder in the cache: the new parent entry does not list the
      child, and the child still points at the discarded placeholder. */
  method AddEntryDiscardsPlaceholder(child: ProcessCacheEntry, parent: ProcessCacheEntry)
    returns (resolver: ProcessResolver)
    requires child != parent
    requires child.ppid == 10 && parent.ppid == 0 && parent.children == []
    modifies child, parent
    ensures 10 in resolver.entryCache && 20 in resolver.entryCache
    ensures resolver.entryCache[10] == parent && resolver.entryCache[20] == child
    ensures parent.children == []
    ensures child.parent != null && child.parent != parent && child.parent.children == [child]
  {
    resolver := new ProcessResolver();
    resolver.AddEntry(20, child);
    resolver.AddEntry(10, parent);
  }

  /** Snapshotting the same process twice with the same `/proc` reads
      changes the cache at most once. */
  method SnapshotTwice(resolver: ProcessResolver, proc: FilledProcess, reads_: ProcReads, t: KernelTables)
    returns (first: bool, second: bool)
    requires resolver.Linked()
    modifies resolver, resolver.entryCache.Values
    ensures !second
  {
    first := resolver.SyncCache(proc, reads_, t);
    var pid := ToUint32(proc.pid);
    if first {
      EnrichedFields(old(resolver.SyncBase(pid)), proc, reads_, t);
      assert resolver.SyncSkips(pid);
    }
    second := resolver.SyncCache(proc, reads_, t);
  }

  /** A pid resolved from the kernel tables is cached: the next lookup
      returns the same entry without consulting the tables. */
  method ResolveThenGet(resolver: ProcessResolver, pid: uint32, t: KernelTables, decode: seq<byte> -> RecordDecode)
    returns (r: ProcessCacheEntry?)
    requires resolver.Linked() && CookiesWellFormed(t) && DecoderLeavesCredentials(decode)
    modifies resolver, resolver.entryCache.Values
    ensures r != null ==> resolver.Get(pid) == r
    ensures r == null ==> resolver.Get(pid) == null
  {
    r := resolver.Resolve(pid, t, decode);
  }

  /** Deleting a pid leaves its former children pointing at the removed
      entry. */
  method DeleteKeepsParentLinks(resolver: ProcessResolver, pid: uint32, child: uint32)
    requires resolver.Linked()
    requires pid in resolver.entryCache && child in resolver.entryCache && child != pid
    requires resolver.entryCache[child].parent == resolver.entryCache[pid]
    modifies resolver
    ensures resolver.Get(pid) == null
    ensures resolver.Get(child) != null && resolver.Get(child).parent == old(resolver.entryCache[pid])
  {
    resolver.DelEntry(pid);
  }
}
