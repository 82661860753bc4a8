/** A message received in a room: an immutable value. */
module Messages {
  import opened JavaTypes

  /** Message(Builder): the room, the sender, the tag as an `int`, and the payload, which
      readers only ever see as an unmodifiable view (a Dafny map is a value). */
  datatype Message = Message(roomId: string, senderId: string, tag: Int32,
                             payload: map<string, Value>)
  {
    function GetRoomId(): (r: string)
      ensures r == roomId
    {
      roomId
    }

    function GetSenderId(): (r: string)
      ensures r == senderId
    {
      senderId
    }

    /** getTag(): the tag narrowed to a signed byte. */
    function GetTag(): (t: int)
      ensures -128 <= t < 128
      ensures 0 <= tag < 128 ==> t == tag
      ensures 128 <= tag < 256 ==> t == tag - 256
      ensures (tag - t) % 256 == 0
    {
      ToByte(tag)
    }

    function GetPayload(): (p: map<string, Value>)
      ensures p == payload
    {
      payload
    }
  }
}
