/**
 Packet types and states.  FREE, which no code enters, is left out.
 */
module PacketTypes {
  datatype PacketType = Metric | Register | Alert
  datatype PacketState = Empty | Begin | Wrote | Ready | Done
}
