/** A key/value cell for one version (VersionMapEntry.java), with Java's
    null-aware equals and hashCode.  VersionMapEntry's fields may both be null, so
    both are options here. */
module VersionEntry {
  import opened Wrappers

  /** A Java int. */
  type Int32 = x: int | -0x8000_0000 <= x < 0x8000_0000

  /** Java's int arithmetic: `x` reduced to 32 bits, two's complement. */
  function ToInt32(x: int): (r: Int32)
    ensures (r - x) % 0x1_0000_0000 == 0
    ensures -0x8000_0000 <= x < 0x8000_0000 ==> r == x
  {
    (x + 0x8000_0000) % 0x1_0000_0000 - 0x8000_0000
  }

  class VersionMapEntry {
    var key: Option<string>
    var value: Option<int>

    constructor (key: Option<string>, value: Option<int>)
      ensures GetKey() == key && GetValue() == value
    {
      this.key := key;
      this.value := value;
    }

    function GetKey(): Option<string> reads this { key }

    function GetValue(): Option<int> reads this { value }

    /** Replaces the value and returns the previous one; the key stays. */
    method SetValue(value: Option<int>) returns (previous: Option<int>)
      modifies this`value
      ensures previous == old(GetValue())
      ensures GetValue() == value && GetKey() == old(GetKey())
    {
      previous := this.value;
      this.value := value;
    }

    /** Java's `equals(Object)`: the same object, or another entry whose key
        and value are both equal, two nulls counting as equal. */
    function Equals(o: object?): (r: bool)
      reads this, o
      ensures o == this ==> r
      ensures o == null || !(o is VersionMapEntry) ==> !r
      ensures o is VersionMapEntry ==>
                (r <==> key == (o as VersionMapEntry).key && value == (o as VersionMapEntry).value)
    {
      if this == o then true
      else if o == null || !(o is VersionMapEntry) then false
      else
        var that := o as VersionMapEntry;
        if (if key.Some? then !(that.key.Some? && key.value == that.key.value) else that.key.Some?) then false
        else if (if value.Some? then !(that.value.Some? && value.value == that.value.value) else that.value.Some?) then false
        else true
    }

    /** Java's `hashCode()`: `31 * h(key) + h(value)` in int arithmetic, a null
        field hashing to 0.  String.hashCode and Long.hashCode are parameters. */
    function HashCode(stringHash: string -> Int32, longHash: int -> Int32): (r: Int32)
      reads this
      ensures key.None? && value.None? ==> r == 0
      ensures key.None? && value.Some? ==> r == longHash(value.value)
    {
      var result := if key.Some? then stringHash(key.value) else 0;
      ToInt32(31 * result + (if value.Some? then longHash(value.value) else 0))
    }
  }

  /** Equal entries have equal hash codes, whatever the hash functions of
      String and Long are. */
  lemma EqualEntriesHashAlike(a: VersionMapEntry, b: VersionMapEntry,
                              stringHash: string -> Int32, longHash: int -> Int32)
    requires a.Equals(b)
    ensures b.Equals(a)
    ensures a.HashCode(stringHash, longHash) == b.HashCode(stringHash, longHash)
  {
  }
}
