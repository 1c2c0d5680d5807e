/** The media streams that the camera, the frame pipeline and the peer connection hand around. */
module Media {

  /** A media stream: its identity and the ids of its tracks. */
  datatype Stream = Stream(id: nat, tracks: seq<nat>)
}
