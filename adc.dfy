/** Channel selection for the analog-to-digital converter: the new value of
    the 8-bit ADMUX register when `readADC(channel)` selects a channel. The
    register's upper four bits (reference and adjust settings) are kept and
    its lower four bits, the multiplexer field, take the channel number. */
module Adc {

  /** ADMUX after selecting `channel`, for any previous ADMUX value. */
  function SelectChannel(admux: bv8, channel: bv8): (r: bv8)
    ensures r & 0xF0 == admux & 0xF0
    ensures r & 0x0F == channel & 0x0F
    ensures r / 16 == admux / 16
    ensures r % 16 == channel % 16
  {
    (admux & 0xF0) | (channel & 0x0F)
  }

  /** Selecting the same channel again changes nothing. */
  lemma SelectIdempotent(admux: bv8, channel: bv8)
    ensures SelectChannel(SelectChannel(admux, channel), channel) == SelectChannel(admux, channel)
  {
  }

  /** Of two selections in a row only the second channel counts. */
  lemma SelectLastWins(admux: bv8, first: bv8, second: bv8)
    ensures SelectChannel(SelectChannel(admux, first), second) == SelectChannel(admux, second)
  {
  }

  /** Channel numbers that differ only above bit 3 select the same input. */
  lemma SelectIgnoresHighChannelBits(admux: bv8, channel: bv8)
    ensures SelectChannel(admux, channel) == SelectChannel(admux, channel & 0x0F)
    ensures SelectChannel(admux, channel) == SelectChannel(admux, channel + 0x10)
  {
  }
}
