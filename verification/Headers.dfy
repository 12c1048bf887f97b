/**
 How request and response headers cross into C and back (nwep/message.py:21-59): an array of
 name and value pointers ended by a null name, whose C strings a separate list keeps alive, and
 the index-stepping scan that reads a message's headers.  A str stands for its UTF-8 bytes.
 */
module Headers {

  type Bytes = seq<bv8>

  datatype Header = Header(name: Bytes, value: Bytes)

  // C strings

  /** A char[] made from bytes: they are copied and a NUL is put behind them. */
  class CString {
    const data: Bytes

    constructor (text: Bytes)
      ensures data == text + [0]
    {
      data := text + [0];
    }
  }

  predicate Terminated(data: Bytes) {
    0 in data
  }

  /** What C, and ffi.string, read at a pointer: the bytes up to the first NUL. */
  function Text(data: Bytes): (t: Bytes)
    requires Terminated(data)
    ensures |t| < |data| && t == data[..|t|] && data[|t|] == 0 && 0 !in t
  {
    if data[0] == 0 then [] else [data[0]] + Text(data[1..])
  }

  /** A text as it comes back: cut at its first NUL. */
  function Cut(text: Bytes): Bytes {
    Text(text + [0])
  }

  function CutHeader(h: Header): Header {
    Header(Cut(h.name), Cut(h.value))
  }

  predicate NulFree(hs: seq<Header>) {
    forall i :: 0 <= i < |hs| ==> 0 !in hs[i].name && 0 !in hs[i].value
  }

  function CutAll(hs: seq<Header>): (r: seq<Header>)
    ensures |r| == |hs|
  {
    seq(|hs|, i requires 0 <= i < |hs| => CutHeader(hs[i]))
  }

  lemma CutKeepsIff(text: Bytes)
    ensures Cut(text) == text <==> 0 !in text
  {
    var t := Cut(text);
    if |t| < |text| {
      assert text[|t|] == 0;
    }
    if |t| == |text| {
      assert t == (text + [0])[..|text|] == text;
    }
  }

  /** A header list comes through C unchanged if and only if no name or value holds a NUL. */
  lemma CutAllKeepsIff(hs: seq<Header>)
    ensures CutAll(hs) == hs <==> NulFree(hs)
  {
    forall i | 0 <= i < |hs|
      ensures CutAll(hs)[i] == hs[i] <==> 0 !in hs[i].name && 0 !in hs[i].value
    {
      CutKeepsIff(hs[i].name);
      CutKeepsIff(hs[i].value);
    }
    if CutAll(hs) == hs {
      forall i | 0 <= i < |hs| ensures 0 !in hs[i].name && 0 !in hs[i].value {
        assert CutAll(hs)[i] == hs[i];
      }
    }
  }

  // The array

  /** A struct nwep_header, zeroed at first. */
  datatype Slot = Slot(name: CString?, value: CString?)

  const NULL_SLOT := Slot(null, null)

  /** What C may walk: strings in every slot up to a null name. */
  predicate Walkable(slots: seq<Slot>) {
    && slots != []
    && (slots[0].name != null ==>
          && slots[0].value != null
          && Terminated(slots[0].name.data) && Terminated(slots[0].value.data)
          && Walkable(slots[1..]))
  }

  /** The headers C finds walking the array to its sentinel. */
  function Walk(slots: seq<Slot>): seq<Header>
    requires Walkable(slots)
  {
    if slots[0].name == null then []
    else [Header(Text(slots[0].name.data), Text(slots[0].value.data))] + Walk(slots[1..])
  }

  /** The slots hold exactly these texts, and then the sentinel. */
  predicate Holds(slots: seq<Slot>, hs: seq<Header>) {
    && |slots| == |hs| + 1
    && slots[|hs|] == NULL_SLOT
    && forall i :: 0 <= i < |hs| ==>
         && slots[i].name != null && slots[i].value != null
         && slots[i].name.data == hs[i].name + [0] && slots[i].value.data == hs[i].value + [0]
  }

  lemma {:induction false} WalkFinds(slots: seq<Slot>, hs: seq<Header>)
    requires Holds(slots, hs)
    ensures Walkable(slots) && Walk(slots) == CutAll(hs)
  {
    if hs != [] {
      WalkFinds(slots[1..], hs[1..]);
      assert CutAll(hs) == [CutHeader(hs[0])] + CutAll(hs[1..]);
    }
  }

  /** Every string the array points to, at any slot, is kept alive: name and value of slot i, in turn. */
  predicate Owned(slots: seq<Slot>, keep: seq<CString>) {
    forall i :: 0 <= i < |slots| ==>
      && (slots[i].name != null ==> 2 * i < |keep| && slots[i].name == keep[2 * i])
      && (slots[i].value != null ==> 2 * i + 1 < |keep| && slots[i].value == keep[2 * i + 1])
  }

  /**
   encode_headers.  Nothing to send is a null array; else C walks the array to the input, cut at
   NULs, the sentinel is the only null name, and the keepalive list owns all of it.
   */
  method EncodeHeaders(items: seq<Header>) returns (arr: array?<Slot>, keep: seq<CString>)
    ensures items == [] ==> arr == null && keep == []
    ensures items != [] ==>
              && arr != null && fresh(arr) && arr.Length == |items| + 1
              && Walkable(arr[..]) && Walk(arr[..]) == CutAll(items)
              && (forall i :: 0 <= i < arr.Length ==> (arr[i].name == null <==> i == |items|))
              && Owned(arr[..], keep) && |keep| == 2 * |items|
    ensures items != [] ==> (Walk(arr[..]) == items <==> NulFree(items))
  {
    if items == [] { return null, []; }
    var slots := new Slot[|items| + 1](_ => NULL_SLOT);
    keep := [];
    for i := 0 to |items|
      invariant |keep| == 2 * i
      invariant forall j :: i <= j <= |items| ==> slots[j] == NULL_SLOT
      invariant forall j :: 0 <= j < i ==>
        && slots[j] == Slot(keep[2 * j], keep[2 * j + 1])
        && keep[2 * j].data == items[j].name + [0] && keep[2 * j + 1].data == items[j].value + [0]
    {
      var cname := new CString(items[i].name);
      var cvalue := new CString(items[i].value);
      keep := keep + [cname];
      keep := keep + [cvalue];
      slots[i] := Slot(cname, slots[i].value);
      slots[i] := Slot(slots[i].name, cvalue);
    }
    WalkFinds(slots[..], items);
    CutAllKeepsIff(items);
    return slots, keep;
  }

  // Reading back

  /** A decoded message, which C reads out one header at a time. */
  class Message {
    const headers: seq<Header>

    constructor (headers: seq<Header>)
      ensures this.headers == headers
    {
      this.headers := headers;
    }

    /** nwep_message_header_at: 0 and two C strings, or an error past the last header. */
    method HeaderAt(index: nat) returns (rc: int, name: Bytes, value: Bytes)
      ensures rc == 0 <==> index < |headers|
      ensures rc == 0 ==> name == headers[index].name + [0] && value == headers[index].value + [0]
    {
      if index < |headers| {
        return 0, headers[index].name + [0], headers[index].value + [0];
      }
      return -1, [], [];
    }

    /** headers: steps an index until C reports there is no such header. */
    method Scan() returns (out: seq<Header>)
      ensures out == CutAll(headers)
    {
      out := [];
      var index := 0;
      var rc, name, value := HeaderAt(index);
      while rc == 0
        invariant index <= |headers| && (rc == 0 <==> index < |headers|)
        invariant rc == 0 ==> name == headers[index].name + [0] && value == headers[index].value + [0]
        invariant out == CutAll(headers)[..index]
        decreases |headers| - index
      {
        out := out + [Header(Text(name), Text(value))];
        index := index + 1;
        rc, name, value := HeaderAt(index);
      }
    }
  }

  /** What C has read is NUL-free already, so reading it again loses nothing more. */
  lemma CutTwice(hs: seq<Header>)
    ensures CutAll(CutAll(hs)) == CutAll(hs)
  {
    CutAllKeepsIff(CutAll(hs));
    forall i | 0 <= i < |hs| ensures 0 !in CutAll(hs)[i].name && 0 !in CutAll(hs)[i].value {
      assert CutAll(hs)[i] == CutHeader(hs[i]);
    }
  }

  /**
   The round trip: every header list goes out and comes back in order, cut at NULs, so exactly
   the NUL-free ones come back as they were.
   */
  method RoundTrip(items: seq<Header>) returns (back: seq<Header>)
    ensures back == CutAll(items)
    ensures back == items <==> NulFree(items)
  {
    var arr, _ := EncodeHeaders(items);
    var m := new Message(if arr == null then [] else Walk(arr[..]));  // C copies what it walks
    back := m.Scan();
    CutTwice(items);
    CutAllKeepsIff(items);
  }

  /** Two different headers that C cannot tell apart. */
  lemma NulHidesTheRest()
    ensures Cut([97, 0, 98]) == [97] == Cut([97])
  {
    assert Text([97, 0, 98, 0]) == [97] + Text([0, 98, 0]);
    assert Text([97, 0]) == [97] + Text([0]);
    assert [97, 0, 98] + [0] == [97, 0, 98, 0] && [97] + [0] == [97, 0];
  }
}
