/** The word-wise transfer of strings between the tracer and the traced program. */
module Strings {
  type Byte = n: int | 0 <= n < 256

  const WORD_SIZE: nat := 8
  const MAX_STRING_LEN: nat := 40960

  // ---------- C strings ----------

  /** The length of the string that the bytes start with; all of them if none is zero. */
  function CLen(b: seq<Byte>): (n: nat)
    ensures n <= |b|
    ensures n < |b| ==> b[n] == 0
    ensures forall i | 0 <= i < n :: b[i] != 0
  {
    if b == [] || b[0] == 0 then 0 else 1 + CLen(b[1..])
  }

  function CString(b: seq<Byte>): seq<Byte> {
    b[..CLen(b)]
  }

  lemma {:induction false} CLenIs(b: seq<Byte>, n: nat)
    requires n <= |b| && (forall i | 0 <= i < n :: b[i] != 0) && (n < |b| ==> b[n] == 0)
    ensures CLen(b) == n
  {
  }

  function WordsFor(n: nat): nat {
    (n + WORD_SIZE - 1) / WORD_SIZE * WORD_SIZE
  }

  lemma {:induction false} WordsCover(n: nat)
    ensures n <= WordsFor(n) < n + WORD_SIZE && WordsFor(n) % WORD_SIZE == 0
    ensures n % WORD_SIZE == 0 ==> WordsFor(n) == n
    ensures n % WORD_SIZE != 0 ==> WordsFor(n) == n / WORD_SIZE * WORD_SIZE + WORD_SIZE
  {
  }

  // ---------- The traced program's memory ----------

  /** The memory, read and written in words of eight bytes. */
  class Tracee {
    const mem: array<Byte>

    constructor (mem: array<Byte>)
      ensures this.mem == mem
    {
      this.mem := mem;
    }

    method Peek(addr: nat) returns (word: seq<Byte>)
      requires addr + WORD_SIZE <= mem.Length
      ensures word == mem[addr..addr + WORD_SIZE]
    {
      word := mem[addr..addr + WORD_SIZE];
    }

    method Poke(addr: nat, word: seq<Byte>)
      requires addr + WORD_SIZE <= mem.Length && |word| == WORD_SIZE
      modifies mem
      ensures mem[..] == old(mem[..addr]) + word + old(mem[addr + WORD_SIZE..])
    {
      ghost var was := mem[..];
      assert was == was[..addr] + word[..0] + was[addr..];
      var k := 0;
      while k < WORD_SIZE
        invariant k <= WORD_SIZE
        invariant mem[..] == was[..addr] + word[..k] + was[addr + k..]
      {
        ghost var now := mem[..];
        mem[addr + k] := word[k];
        assert mem[..] == now[addr + k := word[k]];
        ByteJoins(was, addr, word, k);
        k := k + 1;
      }
      assert word[..k] == word;
    }
  }

  lemma {:induction false} ByteJoins(was: seq<Byte>, addr: nat, word: seq<Byte>, k: nat)
    requires k < |word| && addr + k < |was|
    ensures (was[..addr] + word[..k] + was[addr + k..])[addr + k := word[k]] ==
      was[..addr] + word[..k + 1] + was[addr + k + 1..]
  {
  }

  // ---------- Copying out ----------

  /** How many bytes are read from the start of `b`: the words that cover the string and its
      terminator, but no more than the buffer takes. */
  function ReadSize(b: seq<Byte>): nat {
    if CLen(b) < MAX_STRING_LEN then WordsFor(CLen(b) + 1) else MAX_STRING_LEN
  }

  /** Copies a string out of the traced program, cut off at MAX_STRING_LEN.  Every write stays
      inside the buffer of MAX_STRING_LEN + 1 bytes. */
  method CopyOutString(t: Tracee, traceePtr: nat) returns (str: array<Byte>)
    requires traceePtr <= t.mem.Length && traceePtr + ReadSize(t.mem[traceePtr..]) <= t.mem.Length
    ensures fresh(str) && str.Length == MAX_STRING_LEN + 1
    ensures CLen(t.mem[traceePtr..]) < MAX_STRING_LEN ==> CString(str[..]) == CString(t.mem[traceePtr..])
    ensures CLen(t.mem[traceePtr..]) >= MAX_STRING_LEN ==>
      CString(str[..]) == t.mem[traceePtr..traceePtr + MAX_STRING_LEN]
  {
    hide CLen, CString, ReadSize;
    ghost var bytes := t.mem[traceePtr..];
    var traceeAddr := traceePtr;
    var cnt := 0;
    str := new Byte[MAX_STRING_LEN + 1];
    var stringEnd := false;
    while cnt < MAX_STRING_LEN
      invariant cnt <= MAX_STRING_LEN && traceeAddr == traceePtr + cnt && cnt <= |bytes|
      invariant !stringEnd && cnt % WORD_SIZE == 0 && cnt <= CLen(bytes) && str[..cnt] == bytes[..cnt]
    {
      var advance;
      advance, stringEnd := CopyNext(t, str, cnt, traceeAddr, traceePtr);
      cnt := cnt + advance;
      traceeAddr := traceeAddr + advance;
      if stringEnd {
        break;
      }
    }
    str[MAX_STRING_LEN] := 0;
    CopiedString(bytes, str[..], cnt, stringEnd);
  }

  /** One round of the loop: a word is fetched, copied, and looked through for a zero. */
  method CopyNext(t: Tracee, str: array<Byte>, cnt: nat, traceeAddr: nat, ghost traceePtr: nat)
    returns (advance: nat, stringEnd: bool)
    requires t.mem != str && str.Length == MAX_STRING_LEN + 1 && traceePtr <= t.mem.Length
    requires traceeAddr == traceePtr + cnt
    requires var b := t.mem[traceePtr..];
      ReadSize(b) <= |b| && cnt % WORD_SIZE == 0 && cnt < MAX_STRING_LEN && cnt <= CLen(b) && str[..cnt] == b[..cnt]
    modifies str
    ensures var b := t.mem[traceePtr..];
      && cnt + advance <= |b| && cnt + advance <= MAX_STRING_LEN && str[..cnt + advance] == b[..cnt + advance]
      && (if stringEnd then cnt + advance == CLen(b) + 1 else advance == WORD_SIZE && cnt + advance <= CLen(b))
  {
    ghost var b := t.mem[traceePtr..];
    WordFits(b, cnt);
    hide CLen, ReadSize;
    var word := t.Peek(traceeAddr);
    assert word == b[cnt..cnt + WORD_SIZE];
    CopyWord(str, cnt, word);
    advance, stringEnd := ScanWord(word);
    LengthAtWord(b, cnt, word);
    PrefixOfCopy(str[..cnt + WORD_SIZE], b, cnt, word, advance);
    assert str[..cnt + WORD_SIZE][..cnt + advance] == str[..cnt + advance];
  }

  lemma {:induction false} PrefixOfCopy(copied: seq<Byte>, b: seq<Byte>, cnt: nat, word: seq<Byte>, n: nat)
    requires cnt + WORD_SIZE <= |b| && word == b[cnt..cnt + WORD_SIZE] && n <= WORD_SIZE
    requires copied == b[..cnt] + word
    ensures copied[..cnt + n] == b[..cnt + n]
  {
    assert b[..cnt] + b[cnt..cnt + WORD_SIZE] == b[..cnt + WORD_SIZE];
    assert copied == b[..cnt + WORD_SIZE];
    assert b[..cnt + WORD_SIZE][..cnt + n] == b[..cnt + n];
  }

  /** The loop over the bytes of one word: it ends behind the first zero. */
  method ScanWord(word: seq<Byte>) returns (n: nat, stringEnd: bool)
    requires |word| == WORD_SIZE
    ensures stringEnd <==> CLen(word) < WORD_SIZE
    ensures n == if stringEnd then CLen(word) + 1 else WORD_SIZE
  {
    n, stringEnd := 0, false;
    for i := 0 to WORD_SIZE
      invariant n == i && forall k | 0 <= k < i :: word[k] != 0
    {
      n := n + 1;
      if word[i] == 0 {
        CLenIs(word, i);
        stringEnd := true;
        return;
      }
    }
    CLenIs(word, WORD_SIZE);
  }

  /** The length of the string, from where its first zero is not before `cnt`. */
  lemma {:induction false} LengthAtWord(b: seq<Byte>, cnt: nat, word: seq<Byte>)
    requires cnt + WORD_SIZE <= |b| && word == b[cnt..cnt + WORD_SIZE] && cnt <= CLen(b)
    ensures if CLen(word) < WORD_SIZE then CLen(b) == cnt + CLen(word) else cnt + WORD_SIZE <= CLen(b)
  {
    var n := CLen(word);
    if n < WORD_SIZE {
      forall i | 0 <= i < cnt + n
        ensures b[i] != 0
      {
        assert i >= cnt ==> b[i] == word[i - cnt];
      }
      assert b[cnt + n] == word[n];
      CLenIs(b, cnt + n);
    } else {
      assert forall i | 0 <= i < WORD_SIZE :: word[i] == b[cnt + i];
    }
  }

  /** The next word lies inside what is read, and inside the buffer. */
  lemma {:induction false} WordFits(b: seq<Byte>, cnt: nat)
    requires ReadSize(b) <= |b| && cnt % WORD_SIZE == 0 && cnt < MAX_STRING_LEN && cnt <= CLen(b)
    ensures cnt + WORD_SIZE <= |b| && cnt + WORD_SIZE <= MAX_STRING_LEN
  {
    WordsCover(CLen(b) + 1);
  }

  /** `memcpy` of one word. */
  method CopyWord(str: array<Byte>, cnt: nat, word: seq<Byte>)
    requires |word| == WORD_SIZE && cnt + WORD_SIZE < str.Length
    modifies str
    ensures str[..cnt + WORD_SIZE] == old(str[..cnt]) + word
  {
    var k := 0;
    while k < WORD_SIZE
      invariant k <= WORD_SIZE && str[..cnt + k] == old(str[..cnt]) + word[..k]
    {
      str[cnt + k] := word[k];
      assert str[..cnt + k + 1] == str[..cnt + k] + [word[k]];
      k := k + 1;
    }
  }

  lemma {:induction false} CopiedString(b: seq<Byte>, str: seq<Byte>, cnt: nat, ended: bool)
    requires |str| == MAX_STRING_LEN + 1 && str[MAX_STRING_LEN] == 0 && cnt <= MAX_STRING_LEN && cnt <= |b|
    requires str[..cnt] == b[..cnt]
    requires if ended then cnt == CLen(b) + 1 else cnt == MAX_STRING_LEN <= CLen(b)
    ensures CLen(b) < MAX_STRING_LEN ==> CString(str) == CString(b)
    ensures CLen(b) >= MAX_STRING_LEN ==> CString(str) == b[..MAX_STRING_LEN]
  {
    var n := if ended then CLen(b) else MAX_STRING_LEN;
    forall i | 0 <= i < n
      ensures str[i] == b[i] != 0
    {
      assert str[..cnt][i] == b[..cnt][i];
    }
    assert ended ==> str[..cnt][n] == b[..cnt][n];
    CLenIs(str, n);
    assert str[..n] == str[..cnt][..n] && b[..n] == b[..cnt][..n];
  }

  // ---------- Copying back ----------

  function Zeros(n: nat): (z: seq<Byte>)
    ensures |z| == n && forall i | 0 <= i < n :: z[i] == 0
  {
    seq(n, _ => 0)
  }

  /** The words that are written for a string: the string, its terminator, and zeros up to the
      end of the last word. */
  function Padded(s: seq<Byte>): (w: seq<Byte>)
    ensures |w| == WordsFor(|s| + 1)
  {
    WordsCover(|s| + 1);
    s + Zeros(WordsFor(|s| + 1) - |s|)
  }

  /** The memory once the string was copied back to `addr`. */
  function CopiedBack(mem: seq<Byte>, addr: nat, s: seq<Byte>): (r: seq<Byte>)
    requires addr + WordsFor(|s| + 1) <= |mem|
    ensures |r| == |mem|
  {
    mem[..addr] + Padded(s) + mem[addr + WordsFor(|s| + 1)..]
  }

  /** Copies a string back: whole words first, and then what remains, filled up with zeros. */
  method CopyBackString(t: Tracee, tracerPtr: seq<Byte>, traceePtr: nat)
    requires CLen(tracerPtr) < |tracerPtr|
    requires traceePtr + WordsFor(CLen(tracerPtr) + 1) <= t.mem.Length
    modifies t.mem
    ensures t.mem[..] == CopiedBack(old(t.mem[..]), traceePtr, CString(tracerPtr))
  {
    hide CLen, CString, Padded, WordsFor, Offset;
    ghost var s, mem := CString(tracerPtr), t.mem[..];
    StringLength(tracerPtr);
    var strLen := CLen(tracerPtr) + 1;
    var nWords := strLen / WORD_SIZE;
    var remain := strLen % WORD_SIZE;
    PokeWords(t, tracerPtr, traceePtr, nWords, mem);
    var at := Offset(nWords);
    OffsetEnds(strLen);
    if remain != 0 {
      PaddedRest(tracerPtr);
      var data := tracerPtr[at..at + remain] + Zeros(WORD_SIZE - remain);
      PokeNext(t, mem, traceePtr, Padded(s), at, data);
      at := at + WORD_SIZE;
    }
    assert Padded(s)[..at] == Padded(s);
    CopiedBackIs(mem, traceePtr, s);
  }

  /** The offset of word `n`. */
  function Offset(n: nat): nat {
    n * WORD_SIZE
  }

  lemma {:induction false} OffsetNext(n: nat, cnt: nat)
    requires cnt < n / WORD_SIZE
    ensures Offset(cnt + 1) == Offset(cnt) + WORD_SIZE <= n
  {
  }

  lemma {:induction false} OffsetEnds(n: nat)
    ensures Offset(0) == 0 && Offset(n / WORD_SIZE) + n % WORD_SIZE == n
    ensures WordsFor(n) == Offset(n / WORD_SIZE) + if n % WORD_SIZE == 0 then 0 else WORD_SIZE
  {
    WordsCover(n);
  }

  lemma {:induction false} StringLength(b: seq<Byte>)
    requires CLen(b) < |b|
    ensures |CString(b)| == CLen(b) && |Padded(CString(b))| == WordsFor(CLen(b) + 1)
  {
  }

  lemma {:induction false} CopiedBackIs(mem: seq<Byte>, addr: nat, s: seq<Byte>)
    requires addr + WordsFor(|s| + 1) <= |mem|
    ensures CopiedBack(mem, addr, s) == mem[..addr] + Padded(s) + mem[addr + |Padded(s)|..]
  {
  }

  /** The loop over the whole words. */
  method PokeWords(t: Tracee, tracerPtr: seq<Byte>, traceePtr: nat, nWords: nat, ghost mem: seq<Byte>)
    requires CLen(tracerPtr) < |tracerPtr| && nWords == (CLen(tracerPtr) + 1) / WORD_SIZE
    requires t.mem[..] == mem && traceePtr + WordsFor(CLen(tracerPtr) + 1) <= |mem|
    modifies t.mem
    ensures Offset(nWords) <= |Padded(CString(tracerPtr))|
    ensures t.mem[..] == mem[..traceePtr] + Padded(CString(tracerPtr))[..Offset(nWords)] +
      mem[traceePtr + Offset(nWords)..]
  {
    hide CLen, CString, Padded, WordsFor, Offset;
    ghost var w := Padded(CString(tracerPtr));
    StringLength(tracerPtr);
    OffsetEnds(CLen(tracerPtr) + 1);
    assert mem == mem[..traceePtr] + w[..0] + mem[traceePtr..];
    var cnt, at := 0, 0;
    while cnt < nWords
      invariant cnt <= nWords && at == Offset(cnt) <= |w|
      invariant t.mem[..] == mem[..traceePtr] + w[..at] + mem[traceePtr + at..]
    {
      OffsetNext(CLen(tracerPtr) + 1, cnt);
      PaddedWord(tracerPtr, at);
      PokeNext(t, mem, traceePtr, w, at, tracerPtr[at..at + WORD_SIZE]);
      cnt := cnt + 1;
      at := at + WORD_SIZE;
    }
  }

  /** The next word of `w` goes to its place. */
  method PokeNext(t: Tracee, ghost mem: seq<Byte>, traceePtr: nat, ghost w: seq<Byte>, at: nat, word: seq<Byte>)
    requires at + WORD_SIZE <= |w| && traceePtr + |w| <= |mem| && word == w[at..at + WORD_SIZE]
    requires t.mem[..] == mem[..traceePtr] + w[..at] + mem[traceePtr + at..]
    modifies t.mem
    ensures t.mem[..] == mem[..traceePtr] + w[..at + WORD_SIZE] + mem[traceePtr + at + WORD_SIZE..]
  {
    PokeExtends(mem, traceePtr, w, at);
    ghost var now := t.mem[..];
    t.Poke(traceePtr + at, word);
    assert t.mem[..] == now[..traceePtr + at] + word + now[traceePtr + at + WORD_SIZE..];
  }

  /** The words that are written are those of the string and its terminator. */
  lemma {:induction false} PaddedWord(b: seq<Byte>, at: nat)
    requires CLen(b) < |b| && at + WORD_SIZE <= CLen(b) + 1
    ensures at + WORD_SIZE <= |Padded(CString(b))| && Padded(CString(b))[at..at + WORD_SIZE] == b[at..at + WORD_SIZE]
  {
    WordsCover(CLen(b) + 1);
  }

  /** What remains is filled up with zeros. */
  lemma {:induction false} PaddedRest(b: seq<Byte>)
    requires CLen(b) < |b| && (CLen(b) + 1) % WORD_SIZE != 0
    ensures var w, n := Padded(CString(b)), CLen(b) + 1;
      var at := Offset(n / WORD_SIZE);
      at + WORD_SIZE == |w| && at < n && w[at..at + WORD_SIZE] == b[at..n] + Zeros(at + WORD_SIZE - n)
  {
    var w, n := Padded(CString(b)), CLen(b) + 1;
    StringLength(b);
    OffsetEnds(n);
    var at := Offset(n / WORD_SIZE);
    assert w == b[..n - 1] + Zeros(|w| - (n - 1));
    hide Padded, WordsFor, Offset, CString;
    var last, rest := w[at..at + WORD_SIZE], b[at..n] + Zeros(at + WORD_SIZE - n);
    forall i | 0 <= i < WORD_SIZE
      ensures last[i] == rest[i]
    {
      assert last[i] == w[at + i];
    }
  }

  /** One more word of `w` is in place. */
  lemma {:induction false} PokeExtends(mem: seq<Byte>, addr: nat, w: seq<Byte>, at: nat)
    requires at + WORD_SIZE <= |w| && addr + |w| <= |mem|
    ensures var now := mem[..addr] + w[..at] + mem[addr + at..];
      && |now| == |mem|
      && now[..addr + at] + w[at..at + WORD_SIZE] + now[addr + at + WORD_SIZE..]
      == mem[..addr] + w[..at + WORD_SIZE] + mem[addr + at + WORD_SIZE..]
  {
  }

  // ---------- There and back ----------

  /** A string without zeros, copied back, is there, and nothing outside the words that cover
      it and its terminator has changed. */
  lemma {:induction false} CopiedBackIsThere(mem: seq<Byte>, addr: nat, s: seq<Byte>)
    requires addr + WordsFor(|s| + 1) <= |mem| && forall i | 0 <= i < |s| :: s[i] != 0
    ensures CString(CopiedBack(mem, addr, s)[addr..]) == s
    ensures forall i | 0 <= i < |mem| && !(addr <= i < addr + WordsFor(|s| + 1)) ::
      CopiedBack(mem, addr, s)[i] == mem[i]
  {
    WordsCover(|s| + 1);
    var b := CopiedBack(mem, addr, s)[addr..];
    assert b == Padded(s) + mem[addr + WordsFor(|s| + 1)..];
    CLenIs(b, |s|);
  }

  /** Round trip: a string shorter than MAX_STRING_LEN, copied back and out again, is the same
      string. */
  method RoundTrip(t: Tracee, s: array<Byte>, addr: nat) returns (str: array<Byte>)
    requires CLen(s[..]) < s.Length && CLen(s[..]) < MAX_STRING_LEN && s != t.mem
    requires addr + WordsFor(CLen(s[..]) + 1) <= t.mem.Length
    modifies t.mem
    ensures CString(str[..]) == CString(old(s[..]))
  {
    ghost var mem := t.mem[..];
    CopyBackString(t, s[..], addr);
    CopiedBackIsThere(mem, addr, CString(s[..]));
    str := CopyOutString(t, addr);
  }
}
