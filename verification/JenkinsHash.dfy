/** apps/flexkvs/server/jenkins_hash.c: one hash with three bodies, chosen by how the key is
    aligned in memory.  All three compute the same fold over the bytes of the key. */
module JenkinsHash {

  // ----- arithmetic on 32-bit words -----

  function Add(x: bv32, y: bv32): bv32 { x + y }

  function Sub(x: bv32, y: bv32): bv32 { x - y }

  function Xor(x: bv32, y: bv32): bv32 { x ^ y }

  function Rot(x: bv32, k: nat): bv32
    requires k < 32
  {
    (x << k) ^ (x >> (32 - k))
  }

  lemma XorTwice(x: bv32, r: bv32)
    ensures Xor(Xor(x, r), r) == x
  {
  }

  lemma AddIs(x: bv32, y: bv32)
    ensures Add(x, y) == x + y
  {
  }

  lemma SubIs(x: bv32, y: bv32)
    ensures Sub(x, y) == x - y
  {
  }

  lemma AddBack(x: bv32, y: bv32)
    ensures Add(x - y, y) == x && Sub(x + y, y) == x
  {
  }

  lemma AddSub(x: bv32, y: bv32)
    ensures Add(Sub(x, y), y) == x && Sub(Add(x, y), y) == x
  {
    hide *;
    AddBack(x, y);
    AddIs(x, y);
    SubIs(x, y);
  }

  lemma AddMoves(x: bv32, y: bv32, z: bv32)
    ensures Add(x + y, z) == Add(x, y + z) && Add(x, y) == Add(y, x)
  {
  }

  lemma AddAssoc(x: bv32, y: bv32, z: bv32)
    ensures Add(Add(x, y), z) == Add(x, Add(y, z)) && Add(x, y) == Add(y, x)
  {
    hide *;
    AddMoves(x, y, z);
    AddIs(x, y);
    AddIs(y, z);
  }

  /** Four words added one by one, from either end. */
  lemma AddFour(x: bv32, p: bv32, q: bv32, r: bv32, s: bv32)
    ensures Add(Add(Add(Add(x, p), q), r), s) == Add(x, Add(Add(Add(p, q), r), s))
    ensures Add(Add(Add(Add(x, s), r), q), p) == Add(x, Add(Add(Add(p, q), r), s))
  {
    hide *;
    AddAssoc(x, p, q); AddAssoc(x, Add(p, q), r); AddAssoc(x, Add(Add(p, q), r), s);
    AddAssoc(x, s, r); AddAssoc(x, Add(s, r), q); AddAssoc(x, Add(Add(s, r), q), p);
    AddAssoc(s, r, q); AddAssoc(r, q, p); AddAssoc(s, Add(r, q), p); AddAssoc(p, q, r);
    AddAssoc(Add(r, q), p, r); AddAssoc(Add(Add(p, q), r), s, s); AddAssoc(r, Add(p, q), s); AddAssoc(p, q, s);
    AddAssoc(q, p, r);
  }

  // ----- mix and final -----

  /** The three words of internal state. */
  datatype Abc = Abc(a: bv32, b: bv32, c: bv32)

  /** One line of mix: a -= c; a ^= rot(c,k); c += b -- then the roles move on. */
  function Line(s: Abc, k: nat): Abc
    requires k < 32
  {
    Abc(s.b, Add(s.c, s.b), Xor(Sub(s.a, s.c), Rot(s.c, k)))
  }

  function Unline(s: Abc, k: nat): Abc
    requires k < 32
  {
    var c := Sub(s.b, s.a);
    Abc(Add(Xor(s.c, Rot(c, k)), c), s.a, c)
  }

  function Mix(s: Abc): Abc
  {
    Line(Line(Line(Line(Line(Line(s, 4), 6), 8), 16), 19), 4)
  }

  function Unmix(s: Abc): Abc
  {
    Unline(Unline(Unline(Unline(Unline(Unline(s, 4), 19), 16), 8), 6), 4)
  }

  lemma LineReversible(s: Abc, k: nat)
    requires k < 32
    ensures Unline(Line(s, k), k) == s && Line(Unline(s, k), k) == s
  {
    hide Add, Sub, Xor, Rot;
    AddSub(s.c, s.b);
    AddSub(s.a, s.c);
    XorTwice(Sub(s.a, s.c), Rot(s.c, k));
    var c := Sub(s.b, s.a);
    AddSub(s.b, s.a);
    AddSub(Xor(s.c, Rot(c, k)), c);
    XorTwice(s.c, Rot(c, k));
  }

  /** mix is reversible, as its comment says: a bijection on triples of words. */
  lemma MixReversible(s: Abc)
    ensures Unmix(Mix(s)) == s && Mix(Unmix(s)) == s
  {
    hide Line, Unline;
    var s1 := Line(s, 4); var s2 := Line(s1, 6); var s3 := Line(s2, 8);
    var s4 := Line(s3, 16); var s5 := Line(s4, 19);
    LineReversible(s, 4); LineReversible(s1, 6); LineReversible(s2, 8);
    LineReversible(s3, 16); LineReversible(s4, 19); LineReversible(s5, 4);
    var t1 := Unline(s, 4); var t2 := Unline(t1, 19); var t3 := Unline(t2, 16);
    var t4 := Unline(t3, 8); var t5 := Unline(t4, 6);
    LineReversible(s, 4); LineReversible(t1, 19); LineReversible(t2, 16); LineReversible(t3, 8);
    LineReversible(t4, 6); LineReversible(t5, 4);
  }

  /** The eighteen assignments of the mix macro. */
  method MixMacro(a0: bv32, b0: bv32, c0: bv32) returns (a: bv32, b: bv32, c: bv32)
    ensures Abc(a, b, c) == Mix(Abc(a0, b0, c0))
  {
    hide Add, Sub, Xor, Rot;
    a, b, c := a0, b0, c0;
    a := Sub(a, c); a := Xor(a, Rot(c, 4));  c := Add(c, b);
    b := Sub(b, a); b := Xor(b, Rot(a, 6));  a := Add(a, c);
    c := Sub(c, b); c := Xor(c, Rot(b, 8));  b := Add(b, a);
    a := Sub(a, c); a := Xor(a, Rot(c, 16)); c := Add(c, b);
    b := Sub(b, a); b := Xor(b, Rot(a, 19)); a := Add(a, c);
    c := Sub(c, b); c := Xor(c, Rot(b, 4));  b := Add(b, a);
  }

  /** The final macro; the hash is c. */
  function Final(s: Abc): bv32
  {
    var c1 := Sub(Xor(s.c, s.b), Rot(s.b, 14));
    var a1 := Sub(Xor(s.a, c1), Rot(c1, 11));
    var b1 := Sub(Xor(s.b, a1), Rot(a1, 25));
    var c2 := Sub(Xor(c1, b1), Rot(b1, 16));
    var a2 := Sub(Xor(a1, c2), Rot(c2, 4));
    var b2 := Sub(Xor(b1, a2), Rot(a2, 14));
    Sub(Xor(c2, b2), Rot(b2, 24))
  }

  // ----- the fold every body computes -----

  /** Byte i of the key, zero beyond its end. */
  function Byte(key: seq<bv8>, i: nat): bv32
  {
    if i < |key| then key[i] as bv32 else 0
  }

  function Shl8(x: bv32): bv32 { x << 8 }

  function Shl16(x: bv32): bv32 { x << 16 }

  function Shl24(x: bv32): bv32 { x << 24 }

  function Little(p: bv32, q: bv32, r: bv32, s: bv32): bv32
  {
    Add(Add(Add(p, Shl8(q)), Shl16(r)), Shl24(s))
  }

  /** Four bytes as a little-endian word, zero-padded. */
  function Word(key: seq<bv8>, i: nat): bv32
  {
    Little(Byte(key, i), Byte(key, i + 1), Byte(key, i + 2), Byte(key, i + 3))
  }

  /** The first twelve bytes added in. */
  function Absorb(s: Abc, key: seq<bv8>): Abc
  {
    Abc(Add(s.a, Word(key, 0)), Add(s.b, Word(key, 4)), Add(s.c, Word(key, 8)))
  }

  function Fold(s: Abc, key: seq<bv8>): bv32
    decreases |key|
  {
    if |key| > 12 then Fold(Mix(Absorb(s, key)), key[12..]) else Final(Absorb(s, key))
  }

  /** 0xdeadbeef + (uint32_t)length */
  function Start(length: nat): bv32
  {
    Add(0xdeadbeef, (length % 0x1_0000_0000) as bv32)
  }

  function Hash(key: seq<bv8>): bv32
  {
    var c := Start(|key|);
    if key == [] then c else Fold(Abc(c, c, c), key)
  }

  // ----- the byte-wise body -----

  function At(mem: seq<bv8>, k: nat): bv32
    requires k < |mem|
  {
    mem[k] as bv32
  }

  /** Adding the bytes of a word one by one adds the word. */
  lemma WordBytes(mem: seq<bv8>, k: nat, length: nat, i: nat, x: bv32)
    requires k + length <= |mem| && i + 4 <= length
    ensures Add(Add(Add(Add(x, At(mem, k + i)), Shl8(At(mem, k + i + 1))), Shl16(At(mem, k + i + 2))),
      Shl24(At(mem, k + i + 3)))
            == Add(x, Word(mem[k..k + length], i))
  {
    hide Add, Shl8, Shl16, Shl24;
    var rest := mem[k..k + length];
    AddFour(x, At(mem, k + i), Shl8(At(mem, k + i + 1)), Shl16(At(mem, k + i + 2)), Shl24(At(mem, k + i + 3)));
  }

  lemma FoldStep(s: Abc, mem: seq<bv8>, k: nat, length: nat)
    requires k + length <= |mem| && length > 12
    ensures Fold(s, mem[k..k + length]) == Fold(Mix(Absorb(s, mem[k..k + length])), mem[k + 12..k + length])
  {
    hide Mix, Absorb, Final;
    assert mem[k..k + length][12..] == mem[k + 12..k + length];
  }

  method BlockBytes(mem: seq<bv8>, k: nat, length: nat, a0: bv32, b0: bv32, c0: bv32)
      returns (a: bv32, b: bv32, c: bv32)
    requires k + length <= |mem| && length > 12
    ensures Abc(a, b, c) == Absorb(Abc(a0, b0, c0), mem[k..k + length])
  {
    hide Add, Shl8, Shl16, Shl24, Word, At;
    a, b, c := a0, b0, c0;
    WordBytes(mem, k, length, 0, a);
    WordBytes(mem, k, length, 4, b);
    WordBytes(mem, k, length, 8, c);
    a := Add(a, At(mem, k));
    a := Add(a, Shl8(At(mem, k + 1)));
    a := Add(a, Shl16(At(mem, k + 2)));
    a := Add(a, Shl24(At(mem, k + 3)));
    b := Add(b, At(mem, k + 4));
    b := Add(b, Shl8(At(mem, k + 5)));
    b := Add(b, Shl16(At(mem, k + 6)));
    b := Add(b, Shl24(At(mem, k + 7)));
    c := Add(c, At(mem, k + 8));
    c := Add(c, Shl8(At(mem, k + 9)));
    c := Add(c, Shl16(At(mem, k + 10)));
    c := Add(c, Shl24(At(mem, k + 11)));
  }

  method HashBytes(mem: seq<bv8>, at: nat, len: nat) returns (h: bv32)
    requires at + len <= |mem|
    ensures h == Hash(mem[at..at + len])
  {
    hide Add, Start, Mix, Absorb, Final, Fold;
    var length, k := len, at;
    var a := Start(length);
    var b, c := a, a;
    while length > 12
      invariant k + length == at + len && at <= k && (length == 0 <==> len == 0)
      invariant len > 0 ==> Fold(Abc(a, b, c), mem[k..k + length]) == Hash(mem[at..at + len])
      invariant len == 0 ==> c == Hash(mem[at..at + len])
    {
      FoldStep(Abc(a, b, c), mem, k, length);
      a, b, c := BlockBytes(mem, k, length, a, b, c);
      a, b, c := MixMacro(a, b, c);
      length := length - 12;
      k := k + 12;
    }
    if length == 0 {
      return c;
    }
    FoldLast(Abc(a, b, c), mem, k, length);
    a, b, c := LastBytes(mem, k, length, a, b, c);
    h := Final(Abc(a, b, c));
  }

  lemma FoldLast(s: Abc, mem: seq<bv8>, k: nat, length: nat)
    requires k + length <= |mem| && length <= 12
    ensures Fold(s, mem[k..k + length]) == Final(Absorb(s, mem[k..k + length]))
  {
    hide Mix, Absorb, Final;
  }

  /** The last switch of the byte-wise body, every case falling through to the next. */
  method LastBytes(mem: seq<bv8>, k: nat, length: nat, a0: bv32, b0: bv32, c0: bv32) returns (a: bv32, b: bv32, c: bv32)
    requires 0 < length <= 12 && k + length <= |mem|
    ensures Abc(a, b, c) == Absorb(Abc(a0, b0, c0), mem[k..k + length])
  {
    hide Add, Shl8, Shl16, Shl24, Word, At;
    a, b, c := a0, b0, c0;
    if length >= 12 { c := Add(c, Shl24(At(mem, k + 11))); }
    if length >= 11 { c := Add(c, Shl16(At(mem, k + 10))); }
    if length >= 10 { c := Add(c, Shl8(At(mem, k + 9))); }
    if length >= 9 { c := Add(c, At(mem, k + 8)); }
    WordFalls(mem, k, length, 8, c0);
    if length >= 8 { b := Add(b, Shl24(At(mem, k + 7))); }
    if length >= 7 { b := Add(b, Shl16(At(mem, k + 6))); }
    if length >= 6 { b := Add(b, Shl8(At(mem, k + 5))); }
    if length >= 5 { b := Add(b, At(mem, k + 4)); }
    WordFalls(mem, k, length, 4, b0);
    if length >= 4 { a := Add(a, Shl24(At(mem, k + 3))); }
    if length >= 3 { a := Add(a, Shl16(At(mem, k + 2))); }
    if length >= 2 { a := Add(a, Shl8(At(mem, k + 1))); }
    if length >= 1 { a := Add(a, At(mem, k)); }
    WordFalls(mem, k, length, 0, a0);
  }

  lemma AddZero(x: bv32)
    ensures Add(x, 0) == x
  {
  }

  lemma ShlZero()
    ensures Shl8(0) == Shl16(0) == Shl24(0) == 0
  {
  }

  /** Falling through from the last byte a key has in a word adds the padded word. */
  lemma WordFalls(mem: seq<bv8>, k: nat, length: nat, i: nat, x: bv32)
    requires k + length <= |mem|
    ensures var x3 := if length >= i + 4 then Add(x, Shl24(At(mem, k + i + 3))) else x;
            var x2 := if length >= i + 3 then Add(x3, Shl16(At(mem, k + i + 2))) else x3;
            var x1 := if length >= i + 2 then Add(x2, Shl8(At(mem, k + i + 1))) else x2;
            var x0 := if length >= i + 1 then Add(x1, At(mem, k + i)) else x1;
            x0 == Add(x, Word(mem[k..k + length], i))
  {
    hide Add, Shl8, Shl16, Shl24;
    var rest := mem[k..k + length];
    var p, q, r, s := Byte(rest, i), Byte(rest, i + 1), Byte(rest, i + 2), Byte(rest, i + 3);
    AddFour(x, p, Shl8(q), Shl16(r), Shl24(s));
    ShlZero();
    AddZero(x); AddZero(Add(x, Shl16(r))); AddZero(Add(x, Shl8(q))); AddZero(Add(x, p));
  }

  // ----- the 32-bit body -----

  function And(x: bv32, m: bv32): bv32 { x & m }

  /** An aligned 32-bit read. */
  function Read32(mem: seq<bv8>, k: nat): bv32
    requires k + 4 <= |mem|
  {
    Little(At(mem, k), At(mem, k + 1), At(mem, k + 2), At(mem, k + 3))
  }

  lemma MaskThree(p: bv32, q: bv32, r: bv32, s: bv32)
    requires p < 256 && q < 256 && r < 256 && s < 256
    ensures And(Little(p, q, r, s), 0xffffff) == Little(p, q, r, 0)
  {
  }

  lemma MaskTwo(p: bv32, q: bv32, r: bv32, s: bv32)
    requires p < 256 && q < 256 && r < 256 && s < 256
    ensures And(Add(Add(Add(p, Shl8(q)), Shl16(r)), Shl24(s)), 0xffff) == Add(p, Shl8(q))
  {
  }

  lemma MaskOne(p: bv32, q: bv32, r: bv32, s: bv32)
    requires p < 256 && q < 256 && r < 256 && s < 256
    ensures And(Add(Add(Add(p, Shl8(q)), Shl16(r)), Shl24(s)), 0xff) == p
  {
  }

  lemma LittleShort(p: bv32, q: bv32)
    ensures Little(p, q, 0, 0) == Add(p, Shl8(q))
    ensures Little(p, 0, 0, 0) == p && Little(0, 0, 0, 0) == 0
  {
    hide Add, Shl8, Shl16, Shl24;
    ShlZero();
    AddZero(Add(p, Shl8(q)));
    AddZero(p);
    AddZero(0);
  }

  /** Masking what lies beyond the end is padding with zeroes. */
  lemma MaskPads(p: bv32, q: bv32, r: bv32, s: bv32)
    requires p < 256 && q < 256 && r < 256 && s < 256
    ensures And(Little(p, q, r, s), 0xffffff) == Little(p, q, r, 0)
    ensures And(Little(p, q, r, s), 0xffff) == Little(p, q, 0, 0)
    ensures And(Little(p, q, r, s), 0xff) == Little(p, 0, 0, 0)
    ensures Little(0, 0, 0, 0) == 0
  {
    hide Add, And, Shl8, Shl16, Shl24;
    MaskThree(p, q, r, s);
    MaskTwo(p, q, r, s);
    MaskOne(p, q, r, s);
    LittleShort(p, q);
  }

  lemma AtSmall(mem: seq<bv8>, k: nat)
    requires k < |mem|
    ensures At(mem, k) < 256
  {
  }

  /** What the 32-bit body adds for the word at i, whatever lies beyond the end of the key. */
  lemma WordMasked(mem: seq<bv8>, k: nat, length: nat, i: nat)
    requires k + length <= |mem| && (length > i ==> k + i + 4 <= |mem|)
    ensures var w := Word(mem[k..k + length], i);
      && (length >= i + 4 ==> w == Read32(mem, k + i))
      && (length == i + 3 ==> w == And(Read32(mem, k + i), 0xffffff))
      && (length == i + 2 ==> w == And(Read32(mem, k + i), 0xffff))
      && (length == i + 1 ==> w == And(Read32(mem, k + i), 0xff))
      && (length <= i ==> w == 0)
  {
    hide Little, And;
    if length > i {
      AtSmall(mem, k + i); AtSmall(mem, k + i + 1); AtSmall(mem, k + i + 2); AtSmall(mem, k + i + 3);
      MaskPads(At(mem, k + i), At(mem, k + i + 1), At(mem, k + i + 2), At(mem, k + i + 3));
    } else {
      MaskPads(0, 0, 0, 0);
    }
  }

  method BlockWords(mem: seq<bv8>, k: nat, length: nat, a0: bv32, b0: bv32, c0: bv32)
      returns (a: bv32, b: bv32, c: bv32)
    requires k + length <= |mem| && length > 12
    ensures Abc(a, b, c) == Absorb(Abc(a0, b0, c0), mem[k..k + length])
  {
    hide Add, Word, Read32, And;
    WordMasked(mem, k, length, 0);
    WordMasked(mem, k, length, 4);
    WordMasked(mem, k, length, 8);
    a := Add(a0, Read32(mem, k));
    b := Add(b0, Read32(mem, k + 4));
    c := Add(c0, Read32(mem, k + 8));
  }

  /** The last switch of the 32-bit body.  It reads whole words, so beyond the end of the key. */
  method LastWords(mem: seq<bv8>, k: nat, length: nat, a0: bv32, b0: bv32, c0: bv32) returns (a: bv32, b: bv32, c: bv32)
    requires 0 < length <= 12 && k + length <= |mem| && k % 4 == 0 && |mem| % 4 == 0
    ensures Abc(a, b, c) == Absorb(Abc(a0, b0, c0), mem[k..k + length])
  {
    hide Add, Word, Read32, And;
    a, b, c := a0, b0, c0;
    WordMasked(mem, k, length, 0);
    WordMasked(mem, k, length, 4);
    WordMasked(mem, k, length, 8);
    AddZero(b0);
    AddZero(c0);
    if length == 12 { c := Add(c, Read32(mem, k + 8)); b := Add(b, Read32(mem, k + 4)); a := Add(a, Read32(mem, k)); }
    else if length == 11 {
      c := Add(c, And(Read32(mem, k + 8), 0xffffff));
      b := Add(b, Read32(mem, k + 4));
      a := Add(a, Read32(mem, k));
    }
    else if length == 10 {
      c := Add(c, And(Read32(mem, k + 8), 0xffff));
      b := Add(b, Read32(mem, k + 4));
      a := Add(a, Read32(mem, k));
    }
    else if length == 9 {
      c := Add(c, And(Read32(mem, k + 8), 0xff));
      b := Add(b, Read32(mem, k + 4));
      a := Add(a, Read32(mem, k));
    }
    else if length == 8 { b := Add(b, Read32(mem, k + 4)); a := Add(a, Read32(mem, k)); }
    else if length == 7 { b := Add(b, And(Read32(mem, k + 4), 0xffffff)); a := Add(a, Read32(mem, k)); }
    else if length == 6 { b := Add(b, And(Read32(mem, k + 4), 0xffff)); a := Add(a, Read32(mem, k)); }
    else if length == 5 { b := Add(b, And(Read32(mem, k + 4), 0xff)); a := Add(a, Read32(mem, k)); }
    else if length == 4 { a := Add(a, Read32(mem, k)); }
    else if length == 3 { a := Add(a, And(Read32(mem, k), 0xffffff)); }
    else if length == 2 { a := Add(a, And(Read32(mem, k), 0xffff)); }
    else { a := Add(a, And(Read32(mem, k), 0xff)); }
  }

  method HashWords(mem: seq<bv8>, at: nat, len: nat) returns (h: bv32)
    requires at + len <= |mem| && at % 4 == 0 && |mem| % 4 == 0
    ensures h == Hash(mem[at..at + len])
  {
    hide Add, Start, Mix, Absorb, Final, Fold;
    var length, k := len, at;
    var a := Start(length);
    var b, c := a, a;
    while length > 12
      invariant k + length == at + len && at <= k && (length == 0 <==> len == 0) && k % 4 == 0
      invariant len > 0 ==> Fold(Abc(a, b, c), mem[k..k + length]) == Hash(mem[at..at + len])
      invariant len == 0 ==> c == Hash(mem[at..at + len])
    {
      FoldStep(Abc(a, b, c), mem, k, length);
      a, b, c := BlockWords(mem, k, length, a, b, c);
      a, b, c := MixMacro(a, b, c);
      length := length - 12;
      k := k + 12;
    }
    if length == 0 {
      return c;
    }
    FoldLast(Abc(a, b, c), mem, k, length);
    a, b, c := LastWords(mem, k, length, a, b, c);
    h := Final(Abc(a, b, c));
  }

  // ----- the 16-bit body -----

  /** An aligned 16-bit read, widened. */
  function Read16(mem: seq<bv8>, k: nat): bv32
    requires k + 2 <= |mem|
  {
    Add(At(mem, k), Shl8(At(mem, k + 1)))
  }

  lemma HalfShifted(r: bv32, s: bv32)
    ensures Shl16(Add(r, Shl8(s))) == Add(Shl16(r), Shl24(s))
  {
  }

  /** Two halves make a word. */
  lemma TwoHalves(p: bv32, q: bv32, r: bv32, s: bv32)
    ensures Add(Add(p, Shl8(q)), Shl16(Add(r, Shl8(s)))) == Little(p, q, r, s)
  {
    HalfShifted(r, s);
    hide Add, Shl8, Shl16, Shl24;
    AddAssoc(Add(p, Shl8(q)), Shl16(r), Shl24(s));
  }

  /** What the 16-bit body adds for the word at i. */
  lemma WordHalves(mem: seq<bv8>, k: nat, length: nat, i: nat, x: bv32)
    requires k + length <= |mem|
    ensures var w := Word(mem[k..k + length], i);
      && (length >= i + 4 ==> w == Add(Read16(mem, k + i), Shl16(Read16(mem, k + i + 2))))
      && (length == i + 3 ==> Add(x, w) == Add(Add(x, Shl16(At(mem, k + i + 2))), Read16(mem, k + i)))
      && (length == i + 2 ==> w == Read16(mem, k + i))
      && (length == i + 1 ==> w == At(mem, k + i))
      && (length <= i ==> w == 0)
  {
    hide Add, Shl8, Shl16, Shl24, At;
    var rest := mem[k..k + length];
    var p, q, r, s := Byte(rest, i), Byte(rest, i + 1), Byte(rest, i + 2), Byte(rest, i + 3);
    ByteIs(mem, k, length, i); ByteIs(mem, k, length, i + 1); ByteIs(mem, k, length, i + 2);
    ByteIs(mem, k, length, i + 3);
    hide Byte;
    TwoHalves(p, q, r, s);
    ShlZero();
    AddZero(p); AddZero(Add(p, Shl8(q))); AddZero(Add(Add(p, Shl8(q)), Shl16(r))); AddZero(0);
    AddAssoc(x, Shl16(r), Add(p, Shl8(q)));
    AddAssoc(Add(p, Shl8(q)), Shl16(r), 0);
  }

  lemma ByteIs(mem: seq<bv8>, k: nat, length: nat, i: nat)
    requires k + length <= |mem|
    ensures Byte(mem[k..k + length], i) == if i < length then At(mem, k + i) else 0
  {
  }

  method BlockHalves(mem: seq<bv8>, k: nat, length: nat, a0: bv32, b0: bv32, c0: bv32)
      returns (a: bv32, b: bv32, c: bv32)
    requires k + length <= |mem| && length > 12
    ensures Abc(a, b, c) == Absorb(Abc(a0, b0, c0), mem[k..k + length])
  {
    hide Add, Shl8, Shl16, Shl24, Word, Read16, At;
    WordHalves(mem, k, length, 0, a0);
    WordHalves(mem, k, length, 4, b0);
    WordHalves(mem, k, length, 8, c0);
    a := Add(a0, Add(Read16(mem, k), Shl16(Read16(mem, k + 2))));
    b := Add(b0, Add(Read16(mem, k + 4), Shl16(Read16(mem, k + 6))));
    c := Add(c0, Add(Read16(mem, k + 8), Shl16(Read16(mem, k + 10))));
  }

  /** The last switch of the 16-bit body; odd cases fall through to the even case below. */
  method LastHalves(mem: seq<bv8>, k: nat, length: nat, a0: bv32, b0: bv32, c0: bv32)
      returns (a: bv32, b: bv32, c: bv32)
    requires 0 < length <= 12 && k + length <= |mem|
    ensures Abc(a, b, c) == Absorb(Abc(a0, b0, c0), mem[k..k + length])
  {
    hide Add, Shl8, Shl16, Shl24, Word, Read16, At;
    a, b, c := a0, b0, c0;
    WordHalves(mem, k, length, 0, a0);
    WordHalves(mem, k, length, 4, b0);
    WordHalves(mem, k, length, 8, c0);
    AddZero(b0);
    AddZero(c0);
    if length == 12 {
      c := Add(c, Add(Read16(mem, k + 8), Shl16(Read16(mem, k + 10))));
    } else if length >= 10 {
      if length == 11 { c := Add(c, Shl16(At(mem, k + 10))); }
      c := Add(c, Read16(mem, k + 8));
    } else if length == 9 {
      c := Add(c, At(mem, k + 8));
    }
    if length >= 8 {
      b := Add(b, Add(Read16(mem, k + 4), Shl16(Read16(mem, k + 6))));
    } else if length >= 6 {
      if length == 7 { b := Add(b, Shl16(At(mem, k + 6))); }
      b := Add(b, Read16(mem, k + 4));
    } else if length == 5 {
      b := Add(b, At(mem, k + 4));
    }
    if length >= 4 {
      a := Add(a, Add(Read16(mem, k), Shl16(Read16(mem, k + 2))));
    } else if length >= 2 {
      if length == 3 { a := Add(a, Shl16(At(mem, k + 2))); }
      a := Add(a, Read16(mem, k));
    } else {
      a := Add(a, At(mem, k));
    }
  }

  method HashHalves(mem: seq<bv8>, at: nat, len: nat) returns (h: bv32)
    requires at + len <= |mem|
    ensures h == Hash(mem[at..at + len])
  {
    hide Add, Start, Mix, Absorb, Final, Fold;
    var length, k := len, at;
    var a := Start(length);
    var b, c := a, a;
    while length > 12
      invariant k + length == at + len && at <= k && (length == 0 <==> len == 0)
      invariant len > 0 ==> Fold(Abc(a, b, c), mem[k..k + length]) == Hash(mem[at..at + len])
      invariant len == 0 ==> c == Hash(mem[at..at + len])
    {
      FoldStep(Abc(a, b, c), mem, k, length);
      a, b, c := BlockHalves(mem, k, length, a, b, c);
      a, b, c := MixMacro(a, b, c);
      length := length - 12;
      k := k + 12;
    }
    if length == 0 {
      return c;
    }
    FoldLast(Abc(a, b, c), mem, k, length);
    a, b, c := LastHalves(mem, k, length, a, b, c);
    h := Final(Abc(a, b, c));
  }

  // ----- the hash -----

  /** jenkins_hash: the same value for the same bytes, wherever they are and whatever is beyond
      them.  Memory is whole words. */
  method JenkinsHash(mem: seq<bv8>, at: nat, len: nat) returns (h: bv32)
    requires at + len <= |mem| && |mem| % 4 == 0
    ensures h == Hash(mem[at..at + len])
  {
    if at % 4 == 0 {
      h := HashWords(mem, at, len);
    } else if at % 2 == 0 {
      h := HashHalves(mem, at, len);
    } else {
      h := HashBytes(mem, at, len);
    }
  }
}
