/** The tri-state flag used for logging, colour and pretty-printing (src/env.rs:410-476). */
module Tristate {
  import opened Wrappers

  /** Forced off, automatic, or forced on; the discriminants are those of the `repr(u8)` enum. */
  datatype OptionalBool = Off | Auto | On {

    /** The boolean value, or `default` when the flag is automatic. */
    function UnwrapOr(default: bool): (r: bool)
      ensures this == On ==> r
      ensures this == Off ==> !r
      ensures this == Auto ==> r == default
    {
      match this
      case On => true
      case Off => false
      case Auto => default
    }

    /** The boolean value, or the closure's result when the flag is automatic. */
    function UnwrapOrElse(f: () -> bool): (r: bool)
      ensures this == Auto ==> r == f()
      ensures this != Auto ==> r == (this == On)
    {
      match this
      case On => true
      case Off => false
      case Auto => f()
    }

    /** The `From<OptionalBool> for Option<bool>` conversion. */
    function ToOption(): (r: Option<bool>)
      ensures r.None? <==> this == Auto
      ensures r.Some? ==> r.value == (this == On)
    {
      match this
      case On => Some(true)
      case Off => Some(false)
      case Auto => None
    }

    /** The integer discriminant: Off = 0, Auto = 1, On = 2. */
    function Level(): (n: nat)
      ensures n <= 2
    {
      match this
      case Off => 0
      case Auto => 1
      case On => 2
    }
  }

  /** `Default for OptionalBool`: the automatic setting, which defers to every default. */
  function DefaultFlag(): (r: OptionalBool)
    ensures forall b: bool :: r.UnwrapOr(b) == b
    ensures r.ToOption().None?
  {
    Auto
  }

  /** The `From<Option<bool>> for OptionalBool` conversion. */
  function FromOption(ob: Option<bool>): (r: OptionalBool)
    ensures r == Auto <==> ob.None?
    ensures ob.Some? ==> r.UnwrapOr(!ob.value) == ob.value
  {
    match ob
    case Some(true) => On
    case Some(false) => Off
    case None => Auto
  }

  /** How a stored integer level reads back as a flag: 0 is Off, 1 is Auto, every other value On. */
  function FromLevel(n: int): (r: OptionalBool)
    ensures r == Off <==> n == 0
    ensures r == Auto <==> n == 1
    ensures r == On <==> n != 0 && n != 1
  {
    if n == 0 then Off else if n == 1 then Auto else On
  }

  /** `unwrap_or_else` decides exactly as `unwrap_or` given the closure's value. */
  lemma UnwrapOrElseIsUnwrapOr(o: OptionalBool, f: () -> bool)
    ensures o.UnwrapOrElse(f) == o.UnwrapOr(f())
  {
  }

  /** The two `Option<bool>` conversions are mutual inverses. */
  lemma OptionRoundTrips(o: OptionalBool, ob: Option<bool>)
    ensures FromOption(o.ToOption()) == o
    ensures FromOption(ob).ToOption() == ob
  {
  }

  /** Decoding a flag's own discriminant gives the flag back. */
  lemma LevelRoundTrip(o: OptionalBool)
    ensures FromLevel(o.Level()) == o
  {
  }
}
