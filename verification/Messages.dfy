/** Multipart messages: the frame vector every handler edits in place. */
module Messages {
  import opened Bytes
  import opened IdentityCodec

  /** What the socket puts on the wire, and what the peer's zmsg makes of it. */
  function WireOf(parts: seq<Frame>): seq<Frame>
  {
    if parts == [] then [] else [ToWire(parts[0])] + parts[1..]
  }

  function TextOf(wire: seq<Frame>): seq<Frame>
  {
    if wire == [] then [] else [ToText(wire[0])] + wire[1..]
  }

  /** A first frame that is empty or starts with NUL passes for the delimiter of an envelope. */
  predicate Delimits(f: Frame) { f == [] || f[0] == 0 }

  /** The message behind its address and, if there is one, its delimiter. */
  function Stripped(parts: seq<Frame>): seq<Frame>
  {
    if parts != [] && Delimits(parts[0]) then parts[1..] else parts
  }

  class ZMsg {
    var parts: seq<Frame>

    constructor ()
      ensures parts == []
    {
      parts := [];
    }

    /** The first frame, if it is a socket's own identity, is stored in textual form. */
    method Recv(wire: seq<Frame>)
      modifies this
      ensures parts == TextOf(wire)
    {
      Clear();
      var i := 0;
      while i < |wire|
        invariant 0 <= i <= |wire| && parts == TextOf(wire[..i])
      {
        var data := wire[i];
        if i == 0 && |data| == 5 && data[0] == 0 {
          var bin := new Byte[5](k requires 0 <= k < 5 => data[k]);
          assert bin[..] == data;
          var text := EncodeUuid(bin);
          CStrExact(Encode(data));
          PushBackC(text[..IDENTITY_MAXLEN]);
        } else {
          parts := parts + [data];
        }
        assert wire[..i + 1] == wire[..i] + [data];
        i := i + 1;
      }
      assert wire[..i] == wire;
    }

    method Clear()
      modifies this
      ensures parts == []
    {
      parts := [];
    }

    /** push_front(std::string&): all octets. */
    method PushFront(part: Frame)
      modifies this
      ensures parts == [part] + old(parts)
    {
      parts := [part] + parts;
    }

    /** push_front(char*): up to the first NUL. */
    method PushFrontC(part: Frame)
      modifies this
      ensures parts == [CStr(part)] + old(parts)
    {
      parts := [CStr(part)] + parts;
    }

    method PushBackC(part: Frame)
      modifies this
      ensures parts == old(parts) + [CStr(part)]
    {
      parts := parts + [CStr(part)];
    }

    /** An empty message has no first frame to give. */
    method PopFront() returns (part: Frame)
      requires parts != []
      modifies this
      ensures part == old(parts)[0] && parts == old(parts)[1..]
    {
      part := parts[0];
      parts := parts[1..];
    }

    /** Replaces the last frame, or becomes the only one. */
    method BodySet(body: Frame)
      modifies this
      ensures parts == (if old(parts) == [] then [] else old(parts)[..|old(parts)| - 1]) + [CStr(body)]
    {
      if |parts| > 0 {
        parts := parts[..|parts| - 1];
      }
      PushBackC(body);
    }

    method Wrap(address: Frame, delim: Frame)
      modifies this
      ensures parts == [CStr(address), CStr(delim)] + old(parts)
    {
      PushFrontC(delim);
      PushFrontC(address);
    }

    method Unwrap() returns (address: Option<Frame>)
      modifies this
      ensures old(parts) == [] ==> address == None && parts == []
      ensures old(parts) != [] ==> address == Some(old(parts)[0]) && parts == Stripped(old(parts)[1..])
    {
      if parts == [] {
        return None;
      }
      var first := PopFront();
      if parts != [] && Delimits(parts[0]) {
        var _ := PopFront();
      }
      return Some(first);
    }

    /** Frame 0 of a textual address goes out in binary form; the message is empty afterwards. */
    method Send() returns (wire: seq<Frame>)
      modifies this
      ensures wire == WireOf(old(parts)) && parts == []
    {
      wire := [];
      var i := 0;
      while i < |parts|
        invariant 0 <= i <= |parts| && wire == WireOf(parts[..i])
        invariant parts == old(parts)
      {
        var data := parts[i];
        if i == 0 && |data| == IDENTITY_MAXLEN && data[0] == AT {
          var bin := DecodeUuid(data);
          wire := wire + [bin[..5]];
        } else {
          wire := wire + [data];
        }
        assert parts[..i + 1] == parts[..i] + [data];
        i := i + 1;
      }
      assert parts[..i] == parts;
      Clear();
    }
  }
}
