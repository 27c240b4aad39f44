/** The web server's table of the four relay pins (12, 11, 10, 9): its
    `/api/<action>/<pin>/` handler switches a pin and records the new state
    in one of four boolean flags, and `/api/info/<pin>/` reports a flag.
    The clock process drives its relays only through the first of these
    requests, so the clock model calls the same table. */
module Relays {

  import opened Wrappers

  /** The four flags `pin_twelve`, `pin_eleven`, `pin_ten`, `pin_nine`. */
  datatype Flags = Flags(twelve: bool, eleven: bool, ten: bool, nine: bool)

  /** The flags as the server starts: every pin off. */
  const Initial := Flags(false, false, false, false)

  /** The pin strings the handlers know. */
  predicate IsPin(pin: string) {
    pin == "12" || pin == "11" || pin == "10" || pin == "9"
  }

  /** The flag recorded for a pin string, if it names one of the four pins. */
  function Flag(f: Flags, pin: string): (r: Option<bool>)
    ensures r.Some? <==> IsPin(pin)
  {
    if pin == "12" then Some(f.twelve)
    else if pin == "11" then Some(f.eleven)
    else if pin == "10" then Some(f.ten)
    else if pin == "9" then Some(f.nine)
    else None
  }

  /** The flags with one pin's flag replaced; unknown pin strings change nothing. */
  function SetFlag(f: Flags, pin: string, b: bool): (g: Flags)
    ensures IsPin(pin) ==> Flag(g, pin) == Some(b)
    ensures forall p :: p != pin ==> Flag(g, p) == Flag(f, p)
    ensures !IsPin(pin) ==> g == f
  {
    if pin == "12" then f.(twelve := b)
    else if pin == "11" then f.(eleven := b)
    else if pin == "10" then f.(ten := b)
    else if pin == "9" then f.(nine := b)
    else f
  }

  /** What one `pin_control(action, pin)` request does to the flags. */
  function Request(f: Flags, action: string, pin: string): Flags
  {
    if !IsPin(pin) then f
    else if action == "on" then SetFlag(f, pin, true)
    else if action == "off" then SetFlag(f, pin, false)
    else if action == "toggle" then SetFlag(f, pin, !Flag(f, pin).value)
    else f
  }

  /** "on" and "off" set the named pin's flag; "toggle" negates it; the other
      three flags never change. */
  lemma RequestEffect(f: Flags, action: string, pin: string)
    requires IsPin(pin)
    ensures action == "on" ==> Flag(Request(f, action, pin), pin) == Some(true)
    ensures action == "off" ==> Flag(Request(f, action, pin), pin) == Some(false)
    ensures action == "toggle" ==> Flag(Request(f, action, pin), pin) == Some(!Flag(f, pin).value)
    ensures forall p :: p != pin ==> Flag(Request(f, action, pin), p) == Flag(f, p)
  {
  }

  /** An unknown action or an unknown pin string leaves every flag as it was. */
  lemma RequestUnknown(f: Flags, action: string, pin: string)
    requires !IsPin(pin) || (action != "on" && action != "off" && action != "toggle")
    ensures Request(f, action, pin) == f
  {
  }

  /** "toggle" twice restores the flags; "on" and "off" are idempotent. */
  lemma RequestInvolution(f: Flags, pin: string)
    ensures Request(Request(f, "toggle", pin), "toggle", pin) == f
    ensures Request(Request(f, "on", pin), "on", pin) == Request(f, "on", pin)
    ensures Request(Request(f, "off", pin), "off", pin) == Request(f, "off", pin)
  {
  }

  /** The server's pin table: four flags updated in place by each request. */
  class PinTable {
    var pinTwelve: bool
    var pinEleven: bool
    var pinTen: bool
    var pinNine: bool

    function View(): Flags
      reads this
    {
      Flags(pinTwelve, pinEleven, pinTen, pinNine)
    }

    constructor ()
      ensures View() == Initial
    {
      pinTwelve, pinEleven, pinTen, pinNine := false, false, false, false;
    }

    /** `pin_control`: the board write is the relay itself and is not modelled;
        the flag is what the server remembers of it. */
    method Control(action: string, pin: string)
      modifies this
      ensures View() == Request(old(View()), action, pin)
    {
      if action == "on" {
        if pin == "12" { pinTwelve := true; }
        else if pin == "11" { pinEleven := true; }
        else if pin == "10" { pinTen := true; }
        else if pin == "9" { pinNine := true; }
      } else if action == "off" {
        if pin == "12" { pinTwelve := false; }
        else if pin == "11" { pinEleven := false; }
        else if pin == "10" { pinTen := false; }
        else if pin == "9" { pinNine := false; }
      } else if action == "toggle" {
        if pin == "12" { pinTwelve := !pinTwelve; }
        else if pin == "11" { pinEleven := !pinEleven; }
        else if pin == "10" { pinTen := !pinTen; }
        else if pin == "9" { pinNine := !pinNine; }
      }
    }

    /** `homekit_pins`: "1" or "0" per the pin's flag, and no answer for
        any other pin string; it only reads the flags. */
    function Info(pin: string): (r: Option<string>)
      reads this
      ensures r.Some? <==> IsPin(pin)
      ensures r.Some? ==> (r.value == "1" <==> Flag(View(), pin) == Some(true))
      ensures r.Some? ==> (r.value == "0" <==> Flag(View(), pin) == Some(false))
    {
      if pin == "12" then (if pinTwelve then Some("1") else Some("0"))
      else if pin == "11" then (if pinEleven then Some("1") else Some("0"))
      else if pin == "10" then (if pinTen then Some("1") else Some("0"))
      else if pin == "9" then (if pinNine then Some("1") else Some("0"))
      else None
    }
  }
}
