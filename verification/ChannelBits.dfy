/** The interest and result words of a channel, and Winsock's network event masks. */
module ChannelBits {
  type Bits = bv32

  const NONE_EVENT: Bits := 0
  const READ_EVENT: Bits := 0x01
  const WRITE_EVENT: Bits := 0x02
  const CLOSE_EVENT: Bits := 0x04
  const ACCEPT_EVENT: Bits := 0x08
  const ERROR_EVENT: Bits := 0x100

  const FD_READ: Bits := 0x01
  const FD_WRITE: Bits := 0x02
  const FD_ACCEPT: Bits := 0x08
  const FD_CLOSE: Bits := 0x20

  function Enable(word: Bits, event: Bits): Bits { word | event }

  function Disable(word: Bits, event: Bits): Bits { word & !event }

  predicate IsEnabled(word: Bits, event: Bits) { event == word & event }

  predicate IsInterest(event: Bits) {
    event == READ_EVENT || event == WRITE_EVENT || event == CLOSE_EVENT || event == ACCEPT_EVENT
  }

  /** Enabling or disabling one interest changes that one and leaves the other three. */
  lemma InterestsAreIndependent(word: Bits, event: Bits, other: Bits)
    requires IsInterest(event) && IsInterest(other)
    ensures IsEnabled(Enable(word, event), other) <==> other == event || IsEnabled(word, other)
    ensures IsEnabled(Disable(word, event), other) <==> other != event && IsEnabled(word, other)
  {
  }
}
