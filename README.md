# UDP receiver arguments (TSDuck) in Dafny

This project models how TSDuck configures its UDP receivers from a command line.

- `UDPReceiverArgs` holds the settings of one receiver. It has flags, a buffer size, a receive timeout in milliseconds, a local address, a destination `[address:]port` and an optional source filter. It remembers whether the destination is the positional parameter or the `--ip-udp` option.
- `UDPReceiverArgsList` builds one receiver per occurrence of the destination. It loads each entry with its index. Each entry's default local address and default source are those of the entry loaded before it.

Files:

- `network.dfy` (module `Network`): IPv4 addresses as four octets, socket addresses, and the multicast block 224.0.0.0/4. All-zero means "unspecified". It stands in for `tsIPv4Address.h` and `tsIPv4SocketAddress.h`, which are not part of this model.
- `command_line.dfy` (module `CommandLine`): the argument source. Only the occurrence count of an option is modelled. The positional parameter has the empty name.
- `udp_receiver_args.dfy` (module `UdpReceiver`): the record as the class `ReceiverArgs`, with its in-class defaults, `DefineArgs`, `SetUnicast` and both loaders. It also holds `DestName` and the documented rules as predicates: `ValidDestination`, `SourceAccepts` and `EffectiveTimeout`.
- `udp_receiver_args_list.dfy` (module `UdpReceiverList`): the list as the class `ReceiverArgsList`. Its `LoadArgs` loop is proved against the fold `LoadEntries`. The properties of the list are lemmas about that fold.

The bodies of the indexed `loadArgs` and of `setUnicast` are not part of this model. They are parameters: `Loader` and `UnicastSetter` are total function types, so each is a deterministic function of its inputs. Nothing about SSM, first-source or `[address:]port` parsing is asserted of them. Where a property needs an assumption about the loader, the lemma states it as a `requires`. For example, `LoadedListDestinationsValid` requires that the loader never accepts a destination that breaks the documented rule.

Two behaviours worth stating directly:

- The list passes the previous entry's local address and source forward whether or not that entry loaded successfully (`tsUDPReceiverArgsList.cpp:32-33`).
- A timeout of zero or less means no timeout, as documented at `tsUDPReceiverArgs.h:86`.

## Model

| member | source | states |
|---|---|---|
| `UdpReceiver.ReceiverArgs.constructor` | src/libtsduck/base/network/tsUDPReceiverArgs.h:32-57 | a new record has reuse_port, mc_loopback and receive_timestamps true; default_interface, use_first_source and use_ssm false; buffer size 0; timeout -1 ms; unspecified local address, destination and source; the destination is positional |
| `UdpReceiver.DestName` | src/libtsduck/base/network/tsUDPReceiverArgs.h:97-98 | the name is empty (the positional parameter) exactly when the destination is a parameter, and `ip-udp` otherwise |
| `UdpReceiver.ReceiverArgs.DefineArgs` | src/libtsduck/base/network/tsUDPReceiverArgs.h:75-79 | records the destination mode and leaves every public field unchanged |
| `UdpReceiver.ReceiverArgs.SetUnicast` | src/libtsduck/base/network/tsUDPReceiverArgs.h:59-66 | the new settings are the unicast setter applied to the old settings; reuse_port defaults to true and buffer_size to 0; the destination mode is kept |
| `UdpReceiver.ReceiverArgs.LoadArgsAt` | src/libtsduck/base/network/tsUDPReceiverArgs.h:100-109 | the verdict and the new settings are the indexed loader's for the given mode, index, timeout and defaults; the destination mode is kept |
| `UdpReceiver.ReceiverArgs.LoadArgs` | src/libtsduck/base/network/tsUDPReceiverArgs.h:81-92 | the public loader is the indexed loader at index 0, with the recorded mode, the given timeout (default -1 ms), an unspecified local address and an unspecified source |
| `UdpReceiver.ValidDestination` | src/libtsduck/base/network/tsUDPReceiverArgs.h:44-49 | a loaded destination has a port, and an address only when that address is multicast; no address means unicast on the port |
| `UdpReceiver.SourceAccepts` | src/libtsduck/base/network/tsUDPReceiverArgs.h:51-57 | a source accepts a sender when its address is unspecified or equal and its port is unspecified or equal; it always accepts itself, and a fully unspecified source accepts everyone |
| `UdpReceiver.EffectiveTimeout` | src/libtsduck/base/network/tsUDPReceiverArgs.h:86 | there is no timeout exactly when the value is zero or negative; otherwise the timeout is that many milliseconds |
| `UdpReceiver.DefaultTimeoutIsNone` | src/libtsduck/base/network/tsUDPReceiverArgs.h:86-89 | the public loader's default timeout of -1 ms means no timeout |
| `UdpReceiver.DefaultDestinationNotLoaded` | src/libtsduck/base/network/tsUDPReceiverArgs.h:44-49 | a default-constructed record's destination is not a valid loaded destination, because the port is mandatory |
| `UdpReceiver.LoadedDestinationMode` | src/libtsduck/base/network/tsUDPReceiverArgs.h:44-49 | for a valid destination, an address is present exactly when it is multicast; no address means unicast on the port |
| `UdpReceiver.DestinationExamples` | src/libtsduck/base/network/tsUDPReceiverArgs.h:44-49 | 230.1.2.3:5000 and a bare port 5000 are valid; 10.0.0.1:5000 (not multicast) and a multicast address without a port are not |
| `UdpReceiver.UnspecifiedSourceAcceptsAll` | src/libtsduck/base/network/tsUDPReceiverArgs.h:51-57 | the default, unspecified source accepts packets from every sender |
| `UdpReceiver.SpecifiedSourceAcceptsOnlyItself` | src/libtsduck/base/network/tsUDPReceiverArgs.h:51-57 | a source with both address and port accepts a sender if and only if the sender is that socket address |
| `UdpReceiver.SourceCriteriaIndependent` | src/libtsduck/base/network/tsUDPReceiverArgs.h:51-57 | a sender is accepted exactly when the address criterion alone and the port criterion alone both accept it |
| `UdpReceiverList.ReceiverArgsList.LoadArgs` | src/libtsduck/base/network/tsUDPReceiverArgsList.cpp:17-37 | the list has one entry per occurrence of the destination name, and no earlier entry survives; entries and verdict are those of the fold `LoadEntries`; zero occurrences give an empty list and true |
| `UdpReceiverList.LoadEntries` | src/libtsduck/base/network/tsUDPReceiverArgsList.cpp:29-34 | after n iterations of the loop there are exactly n entries |
| `UdpReceiverList.LoadEntriesPrefix` | src/libtsduck/base/network/tsUDPReceiverArgsList.cpp:29-34 | later iterations never change an entry already loaded |
| `UdpReceiverList.LoadEntriesAt` | src/libtsduck/base/network/tsUDPReceiverArgsList.cpp:29-33 | entry i is the loader's result for index i, the list's destination mode, the common timeout and the defaults from entry i-1, whatever the verdicts of earlier entries |
| `UdpReceiverList.FirstEntryDefaults` | src/libtsduck/base/network/tsUDPReceiverArgsList.cpp:25-31 | entry 0 is loaded with an unspecified local address and an unspecified source |
| `UdpReceiverList.LaterEntryDefaults` | src/libtsduck/base/network/tsUDPReceiverArgsList.cpp:31-33 | for i > 0, entry i is loaded with entry i-1's local address and source as that entry was loaded |
| `UdpReceiverList.LoadEntriesOk` | src/libtsduck/base/network/tsUDPReceiverArgsList.cpp:19-36 | the overall result is true if and only if every entry's load returned true |
| `UdpReceiverList.LoadedListDestinationsValid` | src/libtsduck/base/network/tsUDPReceiverArgsList.cpp:29-36 | if the loader never accepts a destination that breaks the port/multicast rule, every entry of a successfully loaded list has a valid destination |
| `UdpReceiverList.LocalAddressInherited` | src/libtsduck/base/network/tsUDPReceiverArgsList.cpp:25-33 | when no entry after the first overrides the local address, every entry has the first entry's local address |

The contracts of `DestName` and `EffectiveTimeout` are their definitions: each body is the one-line rule the source states (`tsUDPReceiverArgs.h:98` and `:86`), and their partners are the lemmas and loaders that use them.

## Left out

- The per-entry indexed loader and `setUnicast`: their bodies are not part of this model. They are function parameters, so no rule on SSM, first-source, `[address:]port` parsing or option ranges is asserted.
- `UdpReceiver.ReceiverArgs.LoadArgsAt`: the loader's outcome does not depend on the record's previous contents. In the list every entry starts default-constructed, so this matters only for the public loader called on a record already in use.
- `UdpReceiver.ReceiverArgs.DefineArgs`: the option definitions added to the `Args` object, and the short-options flag, are not modelled. They belong to the argument library.
- The static `DefineArgs` and the command-line grammar: the argument source is reduced to the occurrence count of each option.
- The list's own declaration (`tsUDPReceiverArgsList.h`) is not part of this model. Its destination mode is a constructor argument, and its `defineArgs` is not modelled.
- List entries are held as values (`seq` of `Settings`), as the vector holds structs. An entry's private destination-mode flag is not kept in it.
- `DuckContext`, error reporting, socket opening and multicast membership: I/O and environment.
- Receive timeouts are unbounded integers of milliseconds; the 64-bit representation of the duration type is not modelled.
- `tspyReport.cpp`: Python bindings for report objects (pointer casts, allocation, threads).
