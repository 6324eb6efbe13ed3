/// The command-line configuration of one UDP receiver (class UDPReceiverArgs):
/// its settings with their compiled-in defaults, the choice between a
/// positional destination and the --ip-udp option, the loader entry points,
/// and the rules its documentation states for destinations, sources and
/// timeouts.
module UdpReceiver {
  import opened Network
  import opened CommandLine

  /// The public fields of one receiver configuration.
  datatype Settings = Settings(
    reusePort: bool,            // --no-reuse-port absent
    defaultInterface: bool,     // --default-interface
    useFirstSource: bool,       // --first-source
    mcLoopback: bool,           // --disable-multicast-loop absent
    useSsm: bool,               // --ssm, or SSM syntax in the destination
    receiveTimestamps: bool,
    receiveBufsize: uint64,     // --buffer-size, 0 is the system default
    receiveTimeout: int,        // --receive-timeout, in milliseconds
    localAddress: IPv4Address,  // --local-address
    destination: SocketAddress, // [address:]port
    source: SocketAddress)      // --source address[:port]

  /// Default receive timeout of the public loader: -1 ms, that is, none.
  const DefaultReceiveTimeout: int := -1

  /// The settings of a default-constructed receiver configuration.
  const DefaultSettings := Settings(
    reusePort := true, defaultInterface := false, useFirstSource := false,
    mcLoopback := true, useSsm := false, receiveTimestamps := true,
    receiveBufsize := 0, receiveTimeout := DefaultReceiveTimeout,
    localAddress := AnyAddress, destination := AnySocketAddress, source := AnySocketAddress)

  /// What the indexed loader reports: its verdict and the settings it leaves
  /// behind (which the caller must not trust when ok is false).
  datatype LoadOutcome = LoadOutcome(ok: bool, settings: Settings)

  /// The indexed loader, whose body is not part of this model: from the
  /// argument source, the destination mode, the destination index, the
  /// default timeout, the default local address and the default source, a
  /// verdict and the loaded settings.
  type Loader = (Args, bool, nat, int, IPv4Address, SocketAddress) -> LoadOutcome

  /// The unicast setter, whose body is not part of this model: from the
  /// current settings, the local address and port, the reuse-port option and
  /// the buffer size, the new settings.
  type UnicastSetter = (Settings, SocketAddress, bool, uint64) -> Settings

  /// Name under which the destination is looked up: the positional parameter
  /// (empty name) or the option --ip-udp.
  function DestName(destinationIsParameter: bool): (name: string)
    ensures name == "" <==> destinationIsParameter
    ensures !destinationIsParameter ==> name == "ip-udp"
  {
    if destinationIsParameter then "" else "ip-udp"
  }

  /// A loaded destination: the port is mandatory; the address, when present,
  /// is a multicast group; without an address, unicast is received on the port.
  predicate ValidDestination(destination: SocketAddress)
    ensures ValidDestination(destination) ==> destination.HasPort()
    ensures ValidDestination(destination) ==>
              (destination.HasAddress() <==> IsMulticast(destination.address))
  {
    AnyAddressNotMulticast();
    destination.HasPort() && (destination.HasAddress() ==> IsMulticast(destination.address))
  }

  /// Source filter: a packet from sender is accepted when the source address
  /// is unspecified or equal, and the source port is unspecified or equal.
  predicate SourceAccepts(source: SocketAddress, sender: SocketAddress)
    ensures sender == source ==> SourceAccepts(source, sender)
    ensures !source.HasAddress() && !source.HasPort() ==> SourceAccepts(source, sender)
  {
    (!source.HasAddress() || source.address == sender.address) &&
    (!source.HasPort() || source.port == sender.port)
  }

  /// How a receive timeout in milliseconds is applied.
  datatype Timeout = NoTimeout | After(ms: nat)

  /// A timeout of zero or less milliseconds means no timeout.
  function EffectiveTimeout(ms: int): (t: Timeout)
    ensures t.NoTimeout? <==> ms <= 0
    ensures t.After? ==> t.ms == ms
  {
    if ms <= 0 then NoTimeout else After(ms)
  }

  /// The default timeout of the public loader means "no timeout".
  lemma DefaultTimeoutIsNone()
    ensures EffectiveTimeout(DefaultReceiveTimeout) == NoTimeout
  {
  }

  /// A default-constructed configuration is not a loaded one: its destination
  /// has no port yet.
  lemma DefaultDestinationNotLoaded()
    ensures !ValidDestination(DefaultSettings.destination)
  {
  }

  /// For a loaded destination, an address is present exactly when the
  /// reception is multicast.
  lemma LoadedDestinationMode(destination: SocketAddress)
    requires ValidDestination(destination)
    ensures destination.HasAddress() <==> IsMulticast(destination.address)
  {
    AnyAddressNotMulticast();
  }

  /// 230.1.2.3:5000 is a multicast destination, a bare port 5000 a unicast
  /// one; 10.0.0.1:5000 (not multicast) and 230.1.2.3 without a port are refused.
  lemma DestinationExamples()
    ensures ValidDestination(SocketAddress(IPv4Address(230, 1, 2, 3), 5000))
    ensures ValidDestination(SocketAddress(AnyAddress, 5000))
    ensures !ValidDestination(SocketAddress(IPv4Address(10, 0, 0, 1), 5000))
    ensures !ValidDestination(SocketAddress(IPv4Address(230, 1, 2, 3), AnyPort))
  {
  }

  /// The unspecified source (the default) accepts every sender.
  lemma UnspecifiedSourceAcceptsAll(sender: SocketAddress)
    ensures SourceAccepts(DefaultSettings.source, sender)
  {
  }

  /// A source with both address and port accepts that sender and no other.
  lemma SpecifiedSourceAcceptsOnlyItself(source: SocketAddress, sender: SocketAddress)
    requires source.HasAddress() && source.HasPort()
    ensures SourceAccepts(source, sender) <==> sender == source
  {
  }

  /// The address criterion and the port criterion are independent: a sender
  /// is accepted exactly when the address alone and the port alone accept it.
  lemma SourceCriteriaIndependent(source: SocketAddress, sender: SocketAddress)
    ensures SourceAccepts(source, sender) <==>
              SourceAccepts(SocketAddress(source.address, AnyPort), sender) &&
              SourceAccepts(SocketAddress(AnyAddress, source.port), sender)
  {
  }

  /// One receiver configuration, whose fields are assigned in place.
  class ReceiverArgs {
    var reusePort: bool
    var defaultInterface: bool
    var useFirstSource: bool
    var mcLoopback: bool
    var useSsm: bool
    var receiveTimestamps: bool
    var receiveBufsize: uint64
    var receiveTimeout: int
    var localAddress: IPv4Address
    var destination: SocketAddress
    var source: SocketAddress
    /// Private in the source: whether the destination is the positional parameter.
    var destIsParameter: bool

    /// The public fields as one value.
    function Value(): Settings
      reads this
    {
      Settings(reusePort, defaultInterface, useFirstSource, mcLoopback, useSsm, receiveTimestamps,
               receiveBufsize, receiveTimeout, localAddress, destination, source)
    }

    /// Default construction: every field takes its in-class initialiser.
    constructor ()
      ensures reusePort && !defaultInterface && !useFirstSource
      ensures mcLoopback && !useSsm && receiveTimestamps
      ensures receiveBufsize == 0 && receiveTimeout == -1
      ensures localAddress == AnyAddress && destination == AnySocketAddress && source == AnySocketAddress
      ensures destIsParameter
      ensures Value() == DefaultSettings
    {
      reusePort, defaultInterface, useFirstSource := true, false, false;
      mcLoopback, useSsm, receiveTimestamps := true, false, true;
      receiveBufsize, receiveTimeout := 0, DefaultReceiveTimeout;
      localAddress, destination, source := AnyAddress, AnySocketAddress, AnySocketAddress;
      destIsParameter := true;
    }

    /// Replaces every public field by the corresponding one of s.
    method Store(s: Settings)
      modifies this
      ensures Value() == s
      ensures destIsParameter == old(destIsParameter)
    {
      reusePort, defaultInterface, useFirstSource := s.reusePort, s.defaultInterface, s.useFirstSource;
      mcLoopback, useSsm, receiveTimestamps := s.mcLoopback, s.useSsm, s.receiveTimestamps;
      receiveBufsize, receiveTimeout := s.receiveBufsize, s.receiveTimeout;
      localAddress, destination, source := s.localAddress, s.destination, s.source;
    }

    /// Records the destination mode; the option definitions themselves
    /// belong to the argument library.
    method DefineArgs(destinationIsParameter: bool)
      modifies this`destIsParameter
      ensures destIsParameter == destinationIsParameter
      ensures Value() == old(Value())
    {
      destIsParameter := destinationIsParameter;
    }

    /// Sets the unicast parameters directly; reusePort defaults to true and
    /// bufferSize to 0 when the caller omits them.
    method SetUnicast(setter: UnicastSetter, localAddressAndPort: SocketAddress,
                      reusePort: bool := true, bufferSize: uint64 := 0)
      modifies this
      ensures Value() == setter(old(Value()), localAddressAndPort, reusePort, bufferSize)
      ensures destIsParameter == old(destIsParameter)
    {
      Store(setter(Value(), localAddressAndPort, reusePort, bufferSize));
    }

    /// The indexed loader: loads the destination of rank destIndex, with the
    /// given defaults for the timeout, the local address and the source.
    method LoadArgsAt(loader: Loader, args: Args, destinationIsParameter: bool, destIndex: nat,
                      defaultReceiveTimeout: int, defaultLocalAddress: IPv4Address,
                      defaultSource: SocketAddress) returns (ok: bool)
      modifies this
      ensures var outcome := loader(args, destinationIsParameter, destIndex, defaultReceiveTimeout,
                                    defaultLocalAddress, defaultSource);
              ok == outcome.ok && Value() == outcome.settings
      ensures destIsParameter == old(destIsParameter)
    {
      var outcome := loader(args, destinationIsParameter, destIndex, defaultReceiveTimeout,
                            defaultLocalAddress, defaultSource);
      Store(outcome.settings);
      ok := outcome.ok;
    }

    /// The public loader: the first destination, in the recorded destination
    /// mode, with no default local address and no default source.
    method LoadArgs(loader: Loader, args: Args, defaultReceiveTimeout: int := DefaultReceiveTimeout)
      returns (ok: bool)
      modifies this
      ensures var outcome := loader(args, old(destIsParameter), 0, defaultReceiveTimeout,
                                    AnyAddress, AnySocketAddress);
              ok == outcome.ok && Value() == outcome.settings
      ensures destIsParameter == old(destIsParameter)
    {
      ok := LoadArgsAt(loader, args, destIsParameter, 0, defaultReceiveTimeout, AnyAddress, AnySocketAddress);
    }
  }
}
