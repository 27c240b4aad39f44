/** The four push buttons on the e-ink display board. Every loop of the
    clock reads them as active-low GPIO inputs; a button in a `pressed` set
    reads low at that moment. */
module Buttons {

  datatype Button = SW1 | SW2 | SW3 | SW4
}
