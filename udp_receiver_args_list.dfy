/// The list of receiver configurations built from one command line
/// (class UDPReceiverArgsList): one entry per occurrence of the destination,
/// each loaded with the previous entry's local address and source as defaults.
module UdpReceiverList {
  import opened Network
  import opened CommandLine
  import opened UdpReceiver

  /// The overall verdict and the loaded entries.
  datatype ListOutcome = ListOutcome(ok: bool, entries: seq<Settings>)

  /// Defaults handed to the entry of rank i: nothing for the first entry,
  /// otherwise the local address and source of entry i-1 as it was loaded.
  function DefaultsFor(entries: seq<Settings>, i: nat): (IPv4Address, SocketAddress)
    requires i <= |entries|
  {
    if i == 0 then (AnyAddress, AnySocketAddress)
    else (entries[i - 1].localAddress, entries[i - 1].source)
  }

  /// The outcome of loading entry i, given the entries loaded before it.
  function EntryOutcome(loader: Loader, args: Args, destIsParameter: bool, receiveTimeout: int,
                        entries: seq<Settings>, i: nat): LoadOutcome
    requires i <= |entries|
  {
    var (localAddress, source) := DefaultsFor(entries, i);
    loader(args, destIsParameter, i, receiveTimeout, localAddress, source)
  }

  /// The loading loop run for its first n iterations: entry k is loaded with
  /// index k, and each verdict is combined with the previous ones.
  function LoadEntries(loader: Loader, args: Args, destIsParameter: bool, receiveTimeout: int,
                       n: nat): (r: ListOutcome)
    ensures |r.entries| == n
  {
    if n == 0 then ListOutcome(true, [])
    else
      var previous := LoadEntries(loader, args, destIsParameter, receiveTimeout, n - 1);
      var outcome := EntryOutcome(loader, args, destIsParameter, receiveTimeout, previous.entries, n - 1);
      ListOutcome(outcome.ok && previous.ok, previous.entries + [outcome.settings])
  }

  /// Running more iterations never changes the entries already loaded.
  lemma {:induction false} LoadEntriesPrefix(loader: Loader, args: Args, destIsParameter: bool,
                                             receiveTimeout: int, m: nat, n: nat)
    requires m <= n
    ensures LoadEntries(loader, args, destIsParameter, receiveTimeout, n).entries[..m] ==
            LoadEntries(loader, args, destIsParameter, receiveTimeout, m).entries
    decreases n
  {
    if m < n {
      var previous := LoadEntries(loader, args, destIsParameter, receiveTimeout, n - 1).entries;
      LoadEntriesPrefix(loader, args, destIsParameter, receiveTimeout, m, n - 1);
      assert LoadEntries(loader, args, destIsParameter, receiveTimeout, n).entries[..m] == previous[..m];
    }
  }

  /// Every entry of rank i is what the loader gives for index i, with the
  /// list's destination mode, the common timeout and the defaults taken
  /// from entry i-1, whatever the verdicts of the earlier entries.
  lemma {:induction false} LoadEntriesAt(loader: Loader, args: Args, destIsParameter: bool,
                                         receiveTimeout: int, n: nat, i: nat)
    requires i < n
    ensures var entries := LoadEntries(loader, args, destIsParameter, receiveTimeout, n).entries;
            entries[i] == EntryOutcome(loader, args, destIsParameter, receiveTimeout, entries, i).settings
  {
    var entries := LoadEntries(loader, args, destIsParameter, receiveTimeout, n).entries;
    var before := LoadEntries(loader, args, destIsParameter, receiveTimeout, i).entries;
    LoadEntriesPrefix(loader, args, destIsParameter, receiveTimeout, i + 1, n);
    LoadEntriesPrefix(loader, args, destIsParameter, receiveTimeout, i, n);
    assert entries[..i] == before;
    assert DefaultsFor(entries, i) == DefaultsFor(before, i);
    assert entries[i] == entries[..i + 1][i];
  }

  /// The first entry is loaded with no default local address and no default source.
  lemma {:induction false} FirstEntryDefaults(loader: Loader, args: Args, destIsParameter: bool, receiveTimeout: int, n: nat)
    requires 0 < n
    ensures LoadEntries(loader, args, destIsParameter, receiveTimeout, n).entries[0] ==
            loader(args, destIsParameter, 0, receiveTimeout, AnyAddress, AnySocketAddress).settings
  {
    LoadEntriesAt(loader, args, destIsParameter, receiveTimeout, n, 0);
  }

  /// Every later entry is loaded with the local address and source of the
  /// entry before it, as that entry was loaded, whether or not its load succeeded.
  lemma {:induction false} LaterEntryDefaults(loader: Loader, args: Args, destIsParameter: bool, receiveTimeout: int,
                           n: nat, i: nat)
    requires 0 < i < n
    ensures var entries := LoadEntries(loader, args, destIsParameter, receiveTimeout, n).entries;
            entries[i] == loader(args, destIsParameter, i, receiveTimeout,
                                 entries[i - 1].localAddress, entries[i - 1].source).settings
  {
    LoadEntriesAt(loader, args, destIsParameter, receiveTimeout, n, i);
  }

  /// The overall verdict is true exactly when every entry's load succeeded.
  lemma {:induction false} LoadEntriesOk(loader: Loader, args: Args, destIsParameter: bool,
                                         receiveTimeout: int, n: nat)
    ensures var r := LoadEntries(loader, args, destIsParameter, receiveTimeout, n);
            r.ok <==> forall i :: 0 <= i < n ==>
                        EntryOutcome(loader, args, destIsParameter, receiveTimeout, r.entries, i).ok
  {
    if n > 0 {
      var r := LoadEntries(loader, args, destIsParameter, receiveTimeout, n);
      var previous := LoadEntries(loader, args, destIsParameter, receiveTimeout, n - 1);
      LoadEntriesOk(loader, args, destIsParameter, receiveTimeout, n - 1);
      assert r.entries[..n - 1] == previous.entries;
      forall i | 0 <= i < n
        ensures EntryOutcome(loader, args, destIsParameter, receiveTimeout, r.entries, i) ==
                EntryOutcome(loader, args, destIsParameter, receiveTimeout, previous.entries, i)
      {
        assert DefaultsFor(r.entries, i) == DefaultsFor(previous.entries, i);
      }
      var last := EntryOutcome(loader, args, destIsParameter, receiveTimeout, previous.entries, n - 1);
      assert r.ok == (last.ok && previous.ok);
    }
  }

  /// The loader never reports success for a destination that breaks the
  /// documented rule (port given, address multicast when present).
  ghost predicate ChecksDestination(loader: Loader)
  {
    forall args, p, i, t, localAddress, source ::
      loader(args, p, i, t, localAddress, source).ok ==>
        ValidDestination(loader(args, p, i, t, localAddress, source).settings.destination)
  }

  /// With such a loader, a successful list holds only valid destinations.
  lemma {:induction false} LoadedListDestinationsValid(loader: Loader, args: Args, destIsParameter: bool,
                                                       receiveTimeout: int, n: nat)
    requires ChecksDestination(loader)
    requires LoadEntries(loader, args, destIsParameter, receiveTimeout, n).ok
    ensures forall i :: 0 <= i < n ==>
              ValidDestination(LoadEntries(loader, args, destIsParameter, receiveTimeout, n).entries[i].destination)
  {
    var r := LoadEntries(loader, args, destIsParameter, receiveTimeout, n);
    LoadEntriesOk(loader, args, destIsParameter, receiveTimeout, n);
    forall i | 0 <= i < n
      ensures ValidDestination(r.entries[i].destination)
    {
      LoadEntriesAt(loader, args, destIsParameter, receiveTimeout, n, i);
    }
  }

  /// The loader keeps the default local address for the entry of rank i
  /// (no --local-address given for it).
  ghost predicate KeepsDefaultLocalAddress(loader: Loader, args: Args, destIsParameter: bool,
                                           receiveTimeout: int, i: nat)
  {
    forall localAddress, source ::
      loader(args, destIsParameter, i, receiveTimeout, localAddress, source).settings.localAddress == localAddress
  }

  /// When only the first destination names a local address, every entry
  /// listens on the local address the first entry resolved.
  lemma {:induction false} LocalAddressInherited(loader: Loader, args: Args, destIsParameter: bool,
                                                 receiveTimeout: int, n: nat)
    requires forall i :: 0 < i < n ==> KeepsDefaultLocalAddress(loader, args, destIsParameter, receiveTimeout, i)
    ensures forall i :: 0 <= i < n ==>
              LoadEntries(loader, args, destIsParameter, receiveTimeout, n).entries[i].localAddress ==
              LoadEntries(loader, args, destIsParameter, receiveTimeout, n).entries[0].localAddress
  {
    if n > 1 {
      var entries := LoadEntries(loader, args, destIsParameter, receiveTimeout, n).entries;
      var previous := LoadEntries(loader, args, destIsParameter, receiveTimeout, n - 1).entries;
      LocalAddressInherited(loader, args, destIsParameter, receiveTimeout, n - 1);
      assert entries[..n - 1] == previous;
      var last := EntryOutcome(loader, args, destIsParameter, receiveTimeout, previous, n - 1);
      assert entries[n - 1] == last.settings;
      assert KeepsDefaultLocalAddress(loader, args, destIsParameter, receiveTimeout, n - 1);
      assert last.settings.localAddress == previous[n - 2].localAddress;
      forall i | 0 <= i < n
        ensures entries[i].localAddress == entries[0].localAddress
      {
        assert entries[0] == previous[0];
        if i < n - 1 {
          assert entries[i] == previous[i];
        } else {
          assert previous[n - 2].localAddress == previous[0].localAddress;
        }
      }
    }
  }

  /// The list of receiver configurations.
  class ReceiverArgsList {
    /// The entries, held by value as in a vector.
    var entries: seq<Settings>
    /// Whether the destination is the positional parameter or --ip-udp.
    var destIsParameter: bool

    constructor (destinationIsParameter: bool)
      ensures entries == [] && destIsParameter == destinationIsParameter
    {
      entries := [];
      destIsParameter := destinationIsParameter;
    }

    /// Rebuilds the list from the command line: one entry per occurrence of
    /// the destination, every entry loaded even after a failure, the result
    /// true exactly when all entries loaded successfully.
    method LoadArgs(loader: Loader, args: Args, receiveTimeout: int) returns (ok: bool)
      modifies this
      ensures destIsParameter == old(destIsParameter)
      ensures |entries| == args.Count(DestName(destIsParameter))
      ensures var r := LoadEntries(loader, args, destIsParameter, receiveTimeout, |entries|);
              ok == r.ok && entries == r.entries
      ensures args.Count(DestName(destIsParameter)) == 0 ==> ok && entries == []
    {
      ok := true;
      entries := [];
      var count := args.Count(DestName(destIsParameter));
      entries := seq(count, _ => DefaultSettings);
      var previousLocalAddress := AnyAddress;
      var previousSource := AnySocketAddress;
      var index := 0;
      while index < |entries|
        invariant destIsParameter == old(destIsParameter)
        invariant |entries| == count && index <= count
        invariant var r := LoadEntries(loader, args, destIsParameter, receiveTimeout, index);
                  ok == r.ok && entries[..index] == r.entries
        invariant (previousLocalAddress, previousSource) == DefaultsFor(entries[..index], index)
      {
        // Stands for ReceiverArgs.LoadArgsAt on entry index, which starts default-constructed.
        var outcome := loader(args, destIsParameter, index, receiveTimeout, previousLocalAddress, previousSource);
        ok := outcome.ok && ok;
        entries := entries[index := outcome.settings];
        previousLocalAddress := entries[index].localAddress;
        previousSource := entries[index].source;
        index := index + 1;
      }
      assert entries == entries[..index];
    }
  }
}
