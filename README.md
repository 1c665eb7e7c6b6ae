# Process resolver, HTTP batch helpers and Python 2 method tables

A Dafny model of three pieces of the Datadog agent:

- **The runtime-security process resolver** (`ProcessResolver.dfy`). A cache
  from pid to process entries. Each entry is an object with a `parent` link
  and a `children` list. `insertEntry` links a new entry to its cached parent,
  or creates a placeholder parent for an uncached parent pid, and then stores
  the entry under its pid. `Resolve` falls back to the kernel tables
  (`pid_cache` then `proc_cache`) on a cache miss. `SyncCache` snapshots a
  process from `/proc` and enriches a cached placeholder in place, so the
  placeholder keeps its identity and its children. The kernel tables are maps
  from byte strings to byte strings. The results of the file-system reads
  (exe link, stat, container id, tty) are passed in as values.
  `ResolverScenarios.dfy` proves facts that span several calls, as client
  code of the resolver's contracts.
- **The HTTP monitor's batch helpers** (`Http.dfy`). The request target of a
  captured request line (section 3.1.1 of RFC 7230), the class of a status
  code (section 6 of RFC 7231), the staleness test of a batch page, and the
  window of the transaction array that a notification names.
- **The Python 2 embedding's method tables** (`Two.dfy`).
  `Two::addModuleFunction` adds a method definition to the vector of one
  extension module. Python reads that vector up to a NULL guard, so the guard
  must remain the last element.

`Common.dfy` holds the shared vocabulary. It defines Option and Result, the
fixed-width integer types, and Go's wrapping conversions `uint32(x)`,
`int32(x)` and `int64(x)`. It also defines the little-endian byte codecs used
for every key and record shared with the kernel.

Two places where the code says something other than a plain reading would
suggest; the model follows the code:

- `AddEntry` with a new object for a pid that holds a placeholder replaces
  the placeholder. The new entry's child list does not include the
  placeholder's children, and those children still point at the discarded
  placeholder. Only `SyncCache` keeps the placeholder object
  (`ResolverScenarios.AddEntryDiscardsPlaceholder` and
  `ResolverScenarios.PlaceholderAdoptedBySnapshot`).
- `SyncCache` skips a cached entry when `ExecTimestamp.IsZero()` is false. Go's
  `IsZero` is true only of the zero `time.Time` (year 1). It is never true of
  `time.Unix(0, n)`, not even for `n == 0`. So every entry that
  `enrichEventFromProc` has filled is skipped afterwards, even one whose
  creation time is 0. The model's `Timestamp` is therefore `ZeroTime` or
  `UnixNano(n)` and not a bare integer.

## Model

| member | source | states |
|---|---|---|
| Common.ToUint32 | pkg/security/probe/process_resolver_bpf.go:84 | Go's `uint32(x)`: the result agrees with x modulo 2^32 and is x itself when x is in range |
| Common.ToInt32 | pkg/security/probe/process_resolver_bpf.go:47 | Go's `int32(x)`: agrees with x modulo 2^32 and is x itself when x fits in 32 signed bits |
| Common.ToInt64 | pkg/security/probe/process_resolver_bpf.go:134 | Go's `int64` arithmetic wraps: agrees with x modulo 2^64 and is x itself when x fits |
| Common.Uint32RoundTrip | pkg/security/probe/process_resolver_bpf.go:218 | reading back a little-endian 32-bit encoding gives the value |
| Common.Uint32Bytes | pkg/security/probe/process_resolver_bpf.go:46-47 | re-encoding a decoded 32-bit value gives back the four bytes it was read from |
| Common.Uint64RoundTrip | pkg/security/probe/process_resolver_bpf.go:153 | reading back a little-endian 64-bit encoding gives the value |
| Common.PutUint32Injective | pkg/security/probe/process_resolver_bpf.go:217-218 | distinct pids give distinct `pid_cache` keys |
| Common.PutUint64Injective | pkg/security/probe/process_resolver_bpf.go:151-153 | distinct inodes give distinct `inode_info_cache` keys |
| ProcessResolver.MarshalInodeInfo | pkg/security/probe/process_resolver_bpf.go:36-39 | the kernel's inode record is 8 bytes: mount id, then the overlay count |
| ProcessResolver.UnmarshalInodeInfo | pkg/security/probe/process_resolver_bpf.go:42-48 | fails with ErrNotEnoughData exactly when fewer than 8 bytes are given; otherwise reads 8 bytes, and the decoded record re-encodes to exactly those 8 bytes |
| ProcessResolver.InodeInfoRoundTrip | pkg/security/probe/process_resolver_bpf.go:42-48 | decoding an encoded record gives back the record and 8, whatever bytes follow it |
| ProcessResolver.RetrieveInodeInfo | pkg/security/probe/process_resolver_bpf.go:150-169 | a missing key gives "not found"; the lookup succeeds exactly when the key is present with at least 8 bytes, and the result is the record those bytes encode |
| ProcessResolver.PlaceholderData | pkg/security/probe/process_resolver_bpf.go:182-187 | a placeholder parent has the parent pid and a zero exec timestamp |
| ProcessResolver.ProcessCacheEntry.constructor | pkg/security/probe/process_resolver_bpf.go:307 | `&ProcessCacheEntry{}`: all fields zero, a zero exec timestamp, no parent and no children |
| ProcessResolver.ProcessCacheEntry.Decoded | pkg/security/probe/process_resolver_bpf.go:231-237 | an entry holding exactly the decoder's fields, with no parent and no children |
| ProcessResolver.ProcessCacheEntry.Placeholder | pkg/security/probe/process_resolver_bpf.go:182-187 | a placeholder has pid = ppid, no parent and the new entry as its only child |
| ProcessResolver.KernelPayload | pkg/security/probe/process_resolver_bpf.go:217-232 | there is a payload exactly when the pid key is in `pid_cache` and its 4-byte cookie is in `proc_cache`; the payload is the `proc_cache` record followed by the whole `pid_cache` value |
| ProcessResolver.KernelLookup | pkg/security/probe/process_resolver_bpf.go:216-246 | unresolved on either table miss; resolved exactly when the payload has at least 208 bytes and decodes; a resolved entry has pid = tid = the pid asked for, takes uid and gid from the 8 bytes after those the decoder read, and every other field from the decoded record |
| ProcessResolver.EntryFromKernel | pkg/security/probe/process_resolver_bpf.go:217-245 | the table lookups, the 208-byte check and the decoding give null exactly when the pid does not resolve, and otherwise a new unlinked entry holding KernelLookup's fields |
| ProcessResolver.KernelLookupIgnoresOtherPids | pkg/security/probe/process_resolver_bpf.go:217-226 | changing another pid's `pid_cache` slot does not change the outcome for this pid |
| ProcessResolver.Enrich | pkg/security/probe/process_resolver_bpf.go:83-122 | an unreadable link and the link "/ (deleted)" fail; enrichment succeeds exactly when the link, the stat, the inode record and the container id are all available |
| ProcessResolver.EnrichedFields | pkg/security/probe/process_resolver_bpf.go:124-146 | a successful enrichment sets pid = tid = `uint32(proc.Pid)`, the parent pid, the binary's path and inode with its kernel inode record, the container, the name, the tty and a non-zero exec timestamp; uid and gid come from the snapshot when it has them and are kept otherwise |
| ProcessResolver.ProcessResolver.constructor | pkg/security/probe/process_resolver_bpf.go:328-334 | a new resolver has an empty cache |
| ProcessResolver.ProcessResolver.InsertEntry | pkg/security/probe/process_resolver_bpf.go:172-195 | the pid maps to the entry whatever was there; a cached parent gets the entry appended to its children and becomes its parent; an uncached parent pid >= 1 gets a fresh placeholder whose only child is the entry; otherwise the entry has no parent; no other key changes, and every cached entry stays in its parent's child list |
| ProcessResolver.ProcessResolver.AddEntry | pkg/security/probe/process_resolver_bpf.go:70-72 | the same effect as insertEntry |
| ProcessResolver.ProcessResolver.DelEntry | pkg/security/probe/process_resolver_bpf.go:197-201 | removes exactly the pid's key; no entry, parent or child list is touched |
| ProcessResolver.ProcessResolver.Get | pkg/security/probe/process_resolver_bpf.go:252-260 | the cached entry when the pid is cached, nil otherwise; reads only the cache |
| ProcessResolver.ProcessResolver.Resolve | pkg/security/probe/process_resolver_bpf.go:204-214 | a cached pid returns its entry and changes nothing; otherwise the kernel fallback's outcome |
| ProcessResolver.ProcessResolver.ResolveFromKernel | pkg/security/probe/process_resolver_bpf.go:216-250 | an unresolved pid returns nil and changes nothing; a resolved pid returns a new entry holding the looked-up fields, inserted at the pid as insertEntry inserts, and no other entry but its parent changes |
| ProcessResolver.ProcessResolver.EnrichEventFromProc | pkg/security/probe/process_resolver_bpf.go:83-147 | the error is the failing step of Enrich, and then the entry is untouched; on success the entry's fields are exactly Enrich's result; lineage links are never touched |
| ProcessResolver.ProcessResolver.SyncSkips | pkg/security/probe/process_resolver_bpf.go:292-305 | pid 0 is always skipped, an uncached pid never is, and a cached placeholder parent is never skipped |
| ProcessResolver.ProcessResolver.SyncBase | pkg/security/probe/process_resolver_bpf.go:301-308 | enrichment starts from the cached entry's fields, or from a zero entry for an uncached pid; when the pid is not skipped, that start has a zero exec timestamp |
| ProcessResolver.ProcessResolver.SyncCache | pkg/security/probe/process_resolver_bpf.go:290-325 | true exactly when the pid is not 0, not cached with an exec timestamp, and enrichment succeeds; false changes nothing; true enriches the cached object itself (or a new one), inserts it at the pid and changes no entry but it and its parent |
| ResolverScenarios.PlaceholderAdoptedBySnapshot | pkg/security/probe/process_resolver_bpf.go:176-192 | a child inserted before its parent, then a snapshot of the parent: the parent pid's entry is the enriched placeholder, the child is its only child, and the child points at it |
| ResolverScenarios.AddEntryDiscardsPlaceholder | pkg/security/probe/process_resolver_bpf.go:192 | AddEntry of a new object at a placeholder's pid: the new entry has no children, and the child still points at the placeholder that lists it |
| ResolverScenarios.SnapshotTwice | pkg/security/probe/process_resolver_bpf.go:301-305 | a second snapshot of the same process never changes the cache |
| ResolverScenarios.ResolveThenGet | pkg/security/probe/process_resolver_bpf.go:207-210 | after Resolve, Get of the same pid returns what Resolve returned |
| ResolverScenarios.DeleteKeepsParentLinks | pkg/security/probe/process_resolver_bpf.go:197-201 | after deleting a parent's pid, its children still point at the removed entry |
| Http.SpaceFrom | pkg/ebpf/http.go:42-43 | the first space at or after a position, or the end of the buffer |
| Http.RequestTarget | pkg/ebpf/http.go:38-55 | the target contains no space, is at most the buffer length minus one, and is empty when the buffer has no space |
| Http.RequestTargetBetweenSpaces | pkg/ebpf/http.go:41-51 | the target is exactly the bytes strictly between the first space and the next space or the end of the buffer |
| Http.EmptyTokenGivesEmptyTarget | pkg/ebpf/http.go:50-54 | two consecutive spaces after the method give an empty target |
| Http.Path | pkg/ebpf/http.go:38-55 | the two index scans compute exactly the request target |
| Http.StatusClass | pkg/ebpf/http.go:59-61 | a multiple of 100 with class <= code < class + 100 |
| Http.IsDirty | pkg/ebpf/http.go:67-69 | for indices below 2^63, dirty exactly when `batch.idx >= notif.batch_idx + HTTPBatchPages` |
| Http.NotDirtyPageNotReused | pkg/ebpf/http.go:63-69 | when the page is not dirty, no batch after the notification's, up to the current one, landed on the notification's page |
| Http.PageId | pkg/ebpf/http.go:74 | the page is the batch index modulo the page count, below the page count |
| Http.PageInBatch | pkg/ebpf/http.go:75 | the page window lies inside the transaction array |
| Http.GetTransactions | pkg/ebpf/http.go:73-76 | `HTTPBatchSize` transactions, the k-th being the one at `pageID * HTTPBatchSize + k` |
| Two.MethFlags | two/two.cpp:41-55 | unknown method types have no flags; NOARGS sets exactly METH_NOARGS, ARGS exactly METH_VARARGS, KEYWORDS exactly METH_VARARGS and METH_KEYWORDS, and no other bit is ever set |
| Two.Two.AddModuleFunction | two/two.cpp:35-71 | an unknown module or method type returns -1, sets the error and leaves every vector as it was; otherwise returns 0, puts the new definition at the front of the module's vector (a new vector holding only the guard on first use), leaves other modules' vectors alone and keeps the guard last in every vector |
| Two.RegistrationKeepsGuardLast | two/two.cpp:57-67 | the updated vector ends in the guard with no guard elsewhere, starts with the new definition, and grows by one (two on first registration) |

## Left out

- Locking: the resolver's `sync.RWMutex` is not modelled and every operation is sequential. `Resolve` holds the write lock (pkg/security/probe/process_resolver_bpf.go:205) while `resolve` calls `insertEntry`, which takes it again (:173). The model describes only the data effect and makes no claim about locking.
- Kernel-table lookup errors other than "key absent" (`LookupBytes` returning an error) are not distinguished: the model treats every failed lookup as a missing key.
- `ProcessCacheEntry.UnmarshalBinary` is not part of this model: it is a function parameter. A precondition demands that a successful decode leaves 8 bytes after the bytes it read, because the code reads uid and gid there without a bounds check.
- ProcessResolver.ProcessResolver.Resolve: requires every `pid_cache` value to hold at least 4 bytes, because the code slices the cookie as `cookieb[0:4]` without a check.
- `FileEvent.ResolveContainerPathWithResolvers` and the rest of the `FileEvent` fields are left out; they belong to the mount resolver.
- `os.Readlink`, `os.Stat`, `utils.PidTTY` and `ContainerResolver.GetContainerID` are not performed: their results are parameters.
- `ebpf.ByteOrder` is fixed as little-endian.
- `DumpCache`, logging, `Start`, `GetProbes` and the `snapshotProbeIDs` lookup are not modelled: they print or wire up eBPF probes.
- The HTTP monitor's setup, goroutine, channels, ticker, unsafe casts (`toHTTPNotification`, `C.GoBytes`) and floating-point rate reporting are not modelled.
- `HTTP_BATCH_SIZE`, `HTTP_BATCH_PAGES` and `HTTP_BUFFER_SIZE` come from a C header that is not part of this model; they are parameters, and the captured fragment is a byte sequence of any length.
- Http.GetTransactions: requires the batch index to be below 2^63. Above that, `int(batch_idx)` is negative and Go's `%` gives a negative page, which would index before the array.
- Http.IsDirty: states the comparison only for indices below 2^63 and sums below 2^63; beyond that the model computes Go's wrapped comparison but proves nothing about it.
- Two's other methods (`init`, `isInitialized`, `getPyVersion`, `runSimpleString`, `GILEnsure`, `GILRelease`, the destructor) are thin wrappers over the Python C API and are not modelled.
- A method registered with a NULL name (`funcName` None) ends Python's reading of the table at that entry, before the guard. Two.GuardedTable looks for the guard entry itself, so the model's invariant does not exclude such an early end.
- The set of extension modules that have a name (`builtins::getExtensionModuleName`) is a constructor parameter of `Two`; the function pointer is a number, 0 being NULL.
- cmd/agent/api/server.go and pkg/config/environment_detection.go are server wiring and environment probing through I/O; they are not part of this model.
