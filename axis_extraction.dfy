/** `getAxis` of the 1.16.1 adapter: the host's parsed axis set translated to Bukkit axes. */
module NmsAxis {

  /** The host's `EnumDirection.EnumAxis`. */
  datatype HostAxis = HostX | HostY | HostZ

  /** Bukkit's `Axis`. */
  datatype Axis = X | Y | Z

  /** Builds the Bukkit axis set one host axis at a time, as the adapter's loop over the `EnumSet` does. */
  method GetAxis(parsed: set<HostAxis>) returns (axes: set<Axis>)
    ensures X in axes <==> HostX in parsed
    ensures Y in axes <==> HostY in parsed
    ensures Z in axes <==> HostZ in parsed
  {
    axes := {};
    var remaining := parsed;
    while remaining != {}
      invariant remaining <= parsed
      invariant X in axes <==> HostX in parsed - remaining
      invariant Y in axes <==> HostY in parsed - remaining
      invariant Z in axes <==> HostZ in parsed - remaining
      decreases remaining
    {
      var element :| element in remaining;
      match element {
        case HostX => axes := axes + {X};
        case HostY => axes := axes + {Y};
        case HostZ => axes := axes + {Z};
      }
      remaining := remaining - {element};
    }
  }
}
