/// The command-line argument source the receiver configuration reads from.
/// Only what the core queries itself is modelled: how many times an option
/// (or, under the empty name, the positional parameter) occurs. The values
/// of the options are read by the per-entry loader, which stays abstract.
module CommandLine {

  /// For each option name, the values given for it, in command-line order.
  datatype Args = Args(occurrences: map<string, seq<string>>)
  {
    /// Number of occurrences of an option; an option never given occurs 0 times.
    function Count(name: string): nat
    {
      if name in occurrences then |occurrences[name]| else 0
    }
  }
}
