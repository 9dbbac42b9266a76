/** Which bytes the hashes of CRUSH_Research/city_hash.c read.  The mixing arithmetic is left out:
    no address depends on it. */
module CityHash {

  predicate Within(i: int, at: int, n: int) {
    at <= i < at + n
  }

  /** The n byte positions from `at` on. */
  function Span(at: int, n: int): (r: set<int>)
    ensures forall i :: i in r <==> at <= i < at + n
  {
    set i | at <= i < at + n && Within(i, at, n)
  }

  // The bytes a hash loads, counted as often as they are loaded.

  function Bytes32(len: nat): nat {
    if len <= 4 then len else if len <= 12 then 12 else if len <= 24 then 24 else 20 + 20 * ((len - 1) / 20)
  }

  function Bytes16(len: nat): nat {
    if len >= 8 then 16 else if len >= 4 then 8 else if len > 0 then 3 else 0
  }

  function Bytes64(len: nat): nat {
    if len <= 16 then Bytes16(len)
    else if len <= 32 then 32
    else if len <= 64 then 64
    else 112 + 96 * ((len - 1) / 64)
  }

  function BytesMurmur(len: nat): nat {
    if len > 16 then 16 + 16 * ((len - 1) / 16) else if len >= 8 then 24 else Bytes16(len)
  }

  function BytesSeeded(len: nat): nat {
    if len < 128 then BytesMurmur(len) else 24 + 192 * (len / 128) + 48 * ((len % 128 + 31) / 32)
  }

  function Bytes128(len: nat): nat {
    if len < 16 then BytesSeeded(len) else 16 + BytesSeeded(len - 16)
  }

  lemma Quotient128(len: nat, c: nat)
    requires 0 <= len - 128 * c < 128
    ensures len / 128 == c && len % 128 == len - 128 * c
  {
  }

  /** The input of a hash, which records the positions that were read.  Reading outside the input
      is refused.  `fetched` counts the bytes of all loads. */
  class Input {
    const size: nat
    var touched: set<int>
    var fetched: nat

    constructor (size: nat)
      ensures this.size == size && touched == {} && fetched == 0
    {
      this.size := size;
      touched, fetched := {}, 0;
    }

    /** `s[i]`, `fetch32` and `fetch64` are loads of 1, 4 and 8 bytes. */
    method Load(at: int, n: nat)
      requires 0 <= at && at + n <= size
      modifies this
      ensures touched == old(touched) + Span(at, n)
      ensures fetched == old(fetched) + n
    {
      touched, fetched := touched + Span(at, n), fetched + n;
    }

    method Hash32Upto4(s: int, len: nat)
      requires 0 <= s && s + len <= size
      modifies this
      ensures touched == old(touched) + Span(s, len)
      ensures fetched == old(fetched) + len
    {
      for i := 0 to len
        invariant touched == old(touched) + Span(s, i) && fetched == old(fetched) + i
      {
        Load(s + i, 1);
      }
    }

    method Hash32From5To12(s: int, len: nat)
      requires 0 <= s && s + len <= size && 5 <= len <= 12
      modifies this
      ensures touched == old(touched) + Span(s, len)
      ensures fetched == old(fetched) + 12
    {
      Load(s, 4);
      Load(s + len - 4, 4);
      Load(s + 4 * (len / 2 / 4 % 2), 4);
    }

    method Hash32From13To24(s: int, len: nat)
      requires 0 <= s && s + len <= size && 13 <= len <= 24
      modifies this
      ensures touched == old(touched) + Span(s, len)
      ensures fetched == old(fetched) + 24
    {
      Load(s - 4 + len / 2, 4);
      Load(s + 4, 4);
      Load(s + len - 8, 4);
      Load(s + len / 2, 4);
      Load(s, 4);
      Load(s + len - 4, 4);
    }

    /** The end of an input over 24 bytes is read first. */
    method Tail20(len: nat)
      requires 24 < len == size
      modifies this
      ensures touched == old(touched) + Span(len - 20, 20)
      ensures fetched == old(fetched) + 20
    {
      Load(len - 4, 4);
      Load(len - 8, 4);
      Load(len - 16, 4);
      Load(len - 12, 4);
      Load(len - 20, 4);
    }

    /** One turn of the loop over whole chunks. */
    method Chunk20(s: int)
      requires 0 <= s && s + 20 <= size
      modifies this
      ensures touched == old(touched) + Span(s, 20)
      ensures fetched == old(fetched) + 20
    {
      Load(s, 4);
      Load(s + 4, 4);
      Load(s + 8, 4);
      Load(s + 12, 4);
      Load(s + 16, 4);
    }

    method CityHash32(len: nat)
      requires len == size
      modifies this
      ensures touched == old(touched) + Span(0, len)
      ensures fetched == old(fetched) + Bytes32(len)
    {
      if len <= 24 {
        if len <= 12 {
          if len <= 4 {
            Hash32Upto4(0, len);
          } else {
            Hash32From5To12(0, len);
          }
        } else {
          Hash32From13To24(0, len);
        }
        return;
      }
      Tail20(len);
      var s, iters := 0, (len - 1) / 20;
      while true
        invariant 0 <= s && 1 <= iters && s + 20 * iters == (len - 1) / 20 * 20
        invariant touched == old(touched) + Span(len - 20, 20) + Span(0, s) && fetched == old(fetched) + 20 + s
        decreases iters
      {
        Chunk20(s);
        assert touched == old(touched) + Span(len - 20, 20) + Span(0, s + 20);
        s := s + 20;
        iters := iters - 1;
        if iters == 0 {
          break;
        }
      }
    }

    method Hash64Upto16(s: int, len: nat)
      requires 0 <= s && s + len <= size && len <= 16
      modifies this
      ensures touched == old(touched) + Span(s, len)
      ensures fetched == old(fetched) + Bytes16(len)
    {
      if len >= 8 {
        Load(s, 8);
        Load(s + len - 8, 8);
      } else if len >= 4 {
        Load(s, 4);
        Load(s + len - 4, 4);
      } else if len > 0 {
        Load(s, 1);
        Load(s + len / 2, 1);
        Load(s + len - 1, 1);
      }
    }

    method Hash64From17To32(s: int, len: nat)
      requires 0 <= s && s + len <= size && 17 <= len <= 32
      modifies this
      ensures touched == old(touched) + Span(s, len)
      ensures fetched == old(fetched) + 32
    {
      Load(s, 8);
      Load(s + 8, 8);
      Load(s + len - 8, 8);
      Load(s + len - 16, 8);
    }

    method Hash64From33To64(s: int, len: nat)
      requires 0 <= s && s + len <= size && 33 <= len <= 64
      modifies this
      ensures touched == old(touched) + Span(s, len)
      ensures fetched == old(fetched) + 64
    {
      Load(s, 8);
      Load(s + 8, 8);
      Load(s + len - 24, 8);
      Load(s + len - 32, 8);
      Load(s + 16, 8);
      Load(s + 24, 8);
      Load(s + len - 8, 8);
      Load(s + len - 16, 8);
    }

    /** `weak_hash_32_with_seeds_raw` */
    method Weak32(s: int)
      requires 0 <= s && s + 32 <= size
      modifies this
      ensures touched == old(touched) + Span(s, 32)
      ensures fetched == old(fetched) + 32
    {
      Load(s, 8);
      Load(s + 8, 8);
      Load(s + 16, 8);
      Load(s + 24, 8);
    }

    /** The loop body that `cityhash64` and `cityhash128_with_seed` share. */
    method Chunk64(s: int)
      requires 0 <= s && s + 64 <= size
      modifies this
      ensures touched == old(touched) + Span(s, 64)
      ensures fetched == old(fetched) + 96
    {
      Load(s + 8, 8);
      Load(s + 48, 8);
      Load(s + 40, 8);
      Weak32(s);
      Weak32(s + 32);
      Load(s + 16, 8);
    }

    /** The end of an input over 64 bytes is read first. */
    method Tail64(len: nat)
      requires 64 < len == size
      modifies this
      ensures touched == old(touched) + Span(len - 64, 64)
      ensures fetched == old(fetched) + 104
    {
      Load(len - 40, 8);
      Load(len - 16, 8);
      Load(len - 56, 8);
      Load(len - 48, 8);
      Load(len - 24, 8);
      Weak32(len - 64);
      Weak32(len - 32);
    }

    method CityHash64(len: nat)
      requires len == size
      modifies this
      ensures touched == old(touched) + Span(0, len)
      ensures fetched == old(fetched) + Bytes64(len)
    {
      if len <= 16 {
        Hash64Upto16(0, len);
        return;
      } else if len <= 32 {
        Hash64From17To32(0, len);
        return;
      } else if len <= 64 {
        Hash64From33To64(0, len);
        return;
      }
      Tail64(len);
      Load(0, 8);
      ghost var before, count, c := touched, fetched, 0;
      var s, left := 0, (len - 1) / 64 * 64;
      while true
        invariant 0 <= c < (len - 1) / 64 && s == 64 * c && left == 64 * ((len - 1) / 64 - c)
        invariant touched == before + Span(0, s) && fetched == count + 96 * c
        decreases left
      {
        Chunk64(s);
        s, left, c := s + 64, left - 64, c + 1;
        assert touched == before + Span(0, s);
        if left == 0 {
          break;
        }
      }
    }

    method CityMurmur(s: int, len: nat)
      requires 0 <= s && s + len <= size
      modifies this
      ensures touched == old(touched) + Span(s, len)
      ensures fetched == old(fetched) + BytesMurmur(len)
    {
      var l := len - 16;
      if l <= 0 {
        Hash64Upto16(s, len);
        if len >= 8 {
          Load(s, 8);
        }
        return;
      }
      Load(s + len - 8, 8);
      Load(s + len - 16, 8);
      assert touched == old(touched) + Span(s + len - 16, 16);
      var p := s;
      while true
        invariant s <= p && 0 < l && p + l == s + len - 16
        invariant touched == old(touched) + Span(s + len - 16, 16) + Span(s, p - s)
        invariant (p - s) % 16 == 0 && fetched == old(fetched) + 16 + (p - s)
        decreases l
      {
        Load(p, 8);
        Load(p + 8, 8);
        p := p + 16;
        l := l - 16;
        assert touched == old(touched) + Span(s + len - 16, 16) + Span(s, p - s);
        if l <= 0 {
          break;
        }
      }
    }

    /** The tail loop steps back in front of the current position, but never in front of s. */
    method CityHash128WithSeed(s: int, len: nat)
      requires 0 <= s && s + len <= size
      modifies this
      ensures touched == old(touched) + Span(s, len)
      ensures fetched == old(fetched) + BytesSeeded(len)
    {
      if len < 128 {
        CityMurmur(s, len);
        return;
      }
      Load(s, 8);
      Load(s + 8, 8);
      Load(s + 88, 8);
      var p, left := s, len;
      ghost var before, count, c := touched, fetched, 0;
      while true
        invariant 0 <= c && p == s + 128 * c && left == len - 128 * c >= 128
        invariant touched == before + Span(s, p - s) && fetched == count + 192 * c
        decreases left
      {
        Chunk128(p);
        p, left, c := p + 128, left - 128, c + 1;
        assert touched == before + Span(s, p - s);
        if left < 128 {
          break;
        }
      }
      Quotient128(len, c);
      var done := TailChunks(p, left);
    }

    /** Both halves of the loop body of `cityhash128_with_seed`. */
    method Chunk128(s: int)
      requires 0 <= s && s + 128 <= size
      modifies this
      ensures touched == old(touched) + Span(s, 128)
      ensures fetched == old(fetched) + 192
    {
      Chunk64(s);
      Chunk64(s + 64);
    }

    /** Chunks of 32 bytes from the end p + left backwards, until `left` bytes are done. */
    method TailChunks(p: int, left: nat) returns (done: nat)
      requires 32 <= p && p + left <= size
      modifies this
      ensures done == (left + 31) / 32 * 32
      ensures touched == old(touched) + Span(p + left - done, done)
      ensures fetched == old(fetched) + 48 * ((left + 31) / 32)
    {
      done := 0;
      while done < left
        invariant done < left + 32 && done % 32 == 0
        invariant touched == old(touched) + Span(p + left - done, done)
        invariant 2 * fetched == 2 * old(fetched) + 3 * done
      {
        done := done + 32;
        Load(p + left - done + 16, 8);
        Load(p + left - done, 8);
        Weak32(p + left - done);
        assert touched == old(touched) + Span(p + left - done, done);
      }
    }

    method CityHash128(len: nat)
      requires len == size
      modifies this
      ensures touched == old(touched) + Span(0, len)
      ensures fetched == old(fetched) + Bytes128(len)
    {
      if len >= 16 {
        Load(0, 8);
        Load(8, 8);
        CityHash128WithSeed(16, len - 16);
      } else {
        CityHash128WithSeed(0, len);
      }
    }
  }

  /** Whatever the length, each hash reads every byte of its input and nothing else. */
  method ReadsExactlyTheInput(len: nat) returns (by32: set<int>, by64: set<int>, by128: set<int>)
    ensures forall i :: i in by32 <==> 0 <= i < len
    ensures by64 == by32 && by128 == by32
  {
    var a := new Input(len);
    a.CityHash32(len);
    var b := new Input(len);
    b.CityHash64(len);
    var c := new Input(len);
    c.CityHash128(len);
    return a.touched, b.touched, c.touched;
  }
}
