/**
 * The web-only wrapping of message text: `content.replace(/(.{18})/g, '$1\n')`
 * puts a line break after every 18 consecutive characters that are not line
 * terminators; other platforms show the content as it is.
 */
module MessageFormat {
  import opened JsString

  /** The values of `Platform.OS`. */
  datatype OS = IOS | Android | Web | Windows | MacOS

  /** The repetition count of the pattern `.{18}`. */
  const ChunkLength: nat := 18

  predicate NoLineTerminator(s: string) {
    forall i :: 0 <= i < |s| ==> !IsLineTerminator(s[i])
  }

  /** The regular expression matches at the front of `s`. */
  predicate ChunkAtFront(s: string) {
    |s| >= ChunkLength && NoLineTerminator(s[..ChunkLength])
  }

  /**
   * The global replace: at each position the scan tries to match; on a match
   * it emits the match and a line break and resumes after the match,
   * otherwise it copies one character and tries again one position later.
   */
  function FormatWeb(s: string): (r: string)
    ensures |r| >= |s|
    decreases |s|
  {
    if ChunkAtFront(s) then s[..ChunkLength] + "\n" + FormatWeb(s[ChunkLength..])
    else if s == [] then []
    else [s[0]] + FormatWeb(s[1..])
  }

  /** `formatMessageContent`: wraps on the web and is the identity elsewhere. */
  function FormatMessageContent(content: string, os: OS): (r: string)
    ensures os != Web ==> r == content
    ensures os == Web ==> r == FormatWeb(content)
  {
    if os == Web then FormatWeb(content) else content
  }

  /**
   * Deletes, scanning left to right, each line break that directly follows
   * 18 characters without a line terminator: the breaks `FormatWeb` inserts.
   */
  function Unformat(t: string): (r: string)
    decreases |t|
  {
    if |t| > ChunkLength && NoLineTerminator(t[..ChunkLength]) && t[ChunkLength] == '\n' then
      t[..ChunkLength] + Unformat(t[ChunkLength + 1..])
    else if t == [] then []
    else [t[0]] + Unformat(t[1..])
  }

  /** Content shorter than one chunk is never wrapped. */
  lemma {:induction false} FormatShort(s: string)
    requires |s| < ChunkLength
    ensures FormatWeb(s) == s
    decreases |s|
  {
    if s != [] {
      FormatShort(s[1..]);
      assert s == [s[0]] + s[1..];
    }
  }

  /** The first (up to) 18 characters come out unchanged. */
  lemma {:induction false} FormatKeepsPrefix(s: string, n: nat)
    requires n <= ChunkLength && n <= |s|
    ensures FormatWeb(s)[..n] == s[..n]
    decreases |s|
  {
    if ChunkAtFront(s) {
    } else if n > 0 {
      FormatKeepsPrefix(s[1..], n - 1);
      assert FormatWeb(s) == [s[0]] + FormatWeb(s[1..]);
    }
  }

  /** Deleting the inserted line breaks gives back the original content. */
  lemma {:induction false} UnformatFormat(s: string)
    ensures Unformat(FormatWeb(s)) == s
    decreases |s|
  {
    var t := FormatWeb(s);
    if ChunkAtFront(s) {
      var rest := FormatWeb(s[ChunkLength..]);
      assert t == s[..ChunkLength] + "\n" + rest;
      assert t[..ChunkLength] == s[..ChunkLength];
      assert t[ChunkLength + 1..] == rest;
      UnformatFormat(s[ChunkLength..]);
      assert s == s[..ChunkLength] + s[ChunkLength..];
    } else if s != [] {
      var rest := FormatWeb(s[1..]);
      assert t == [s[0]] + rest;
      if |s| >= ChunkLength {
        FormatKeepsPrefix(s, ChunkLength);
        assert !NoLineTerminator(t[..ChunkLength]);
      } else {
        FormatShort(s);
      }
      assert t[1..] == rest;
      UnformatFormat(s[1..]);
      assert s == [s[0]] + s[1..];
    }
  }

  /** A match at the front is emitted with its line break. */
  lemma FormatChunk(s: string)
    requires ChunkAtFront(s)
    ensures FormatWeb(s) == s[..ChunkLength] + "\n" + FormatWeb(s[ChunkLength..])
  {
  }

  lemma NoLineTerminatorHead(s: string)
    requires NoLineTerminator(s) && |s| >= ChunkLength
    ensures ChunkAtFront(s)
  {
    var head := s[..ChunkLength];
    forall j | 0 <= j < |head| ensures !IsLineTerminator(head[j]) {
      assert head[j] == s[j];
    }
  }

  lemma NoLineTerminatorTail(s: string)
    requires NoLineTerminator(s) && |s| >= ChunkLength
    ensures NoLineTerminator(s[ChunkLength..])
  {
    var tail := s[ChunkLength..];
    forall j | 0 <= j < |tail| ensures !IsLineTerminator(tail[j]) {
      assert tail[j] == s[j + ChunkLength];
    }
  }

  /** On content without line terminators the first 18 characters always match. */
  lemma SplitTerminatorFree(s: string)
    requires NoLineTerminator(s) && |s| >= ChunkLength
    ensures FormatWeb(s) == s[..ChunkLength] + "\n" + FormatWeb(s[ChunkLength..])
    ensures NoLineTerminator(s[ChunkLength..])
  {
    NoLineTerminatorHead(s);
    FormatChunk(s);
    NoLineTerminatorTail(s);
  }

  lemma DivStep(i: int)
    requires i >= ChunkLength
    ensures i / ChunkLength == 1 + (i - ChunkLength) / ChunkLength
  {
  }

  lemma ModStep(i: int)
    requires i > ChunkLength
    ensures (i + 1) % (ChunkLength + 1) == (i - ChunkLength) % (ChunkLength + 1)
  {
  }

  /** Content of length n without line terminators gains exactly n / 18 line breaks. */
  lemma {:induction false} FormatLength(s: string)
    requires NoLineTerminator(s)
    ensures |FormatWeb(s)| == |s| + |s| / ChunkLength
    decreases |s|
  {
    if |s| < ChunkLength {
      FormatShort(s);
    } else {
      SplitTerminatorFree(s);
      FormatLength(s[ChunkLength..]);
      DivStep(|s|);
    }
  }

  /** On content without line terminators, input character i lands at position i + i / 18. */
  lemma {:induction false} FormatPlacesInput(s: string)
    requires NoLineTerminator(s)
    ensures |FormatWeb(s)| == |s| + |s| / ChunkLength
    ensures forall i :: 0 <= i < |s| ==> FormatWeb(s)[i + i / ChunkLength] == s[i]
    decreases |s|
  {
    FormatLength(s);
    var t := FormatWeb(s);
    if |s| < ChunkLength {
      FormatShort(s);
    } else {
      var tail := s[ChunkLength..];
      SplitTerminatorFree(s);
      FormatPlacesInput(tail);
      var rest := FormatWeb(tail);
      forall i | 0 <= i < |s| ensures t[i + i / ChunkLength] == s[i] {
        if i < ChunkLength {
          assert t[i] == s[i];
        } else {
          var j := i - ChunkLength;
          DivStep(i);
          assert i + i / ChunkLength == ChunkLength + 1 + (j + j / ChunkLength);
          assert t[ChunkLength + 1 + (j + j / ChunkLength)] == rest[j + j / ChunkLength];
          assert tail[j] == s[i];
        }
      }
    }
  }

  /**
   * On content without line terminators, an output character is a line break
   * exactly at every 19th position: one after each 18th input character.
   */
  lemma {:induction false} FormatBreakPositions(s: string)
    requires NoLineTerminator(s)
    ensures forall i :: 0 <= i < |FormatWeb(s)| ==>
      (FormatWeb(s)[i] == '\n' <==> (i + 1) % (ChunkLength + 1) == 0)
    decreases |s|
  {
    var t := FormatWeb(s);
    if |s| < ChunkLength {
      FormatShort(s);
      forall i | 0 <= i < |t| ensures t[i] == '\n' <==> (i + 1) % (ChunkLength + 1) == 0 {
        assert !IsLineTerminator(s[i]);
      }
    } else {
      var tail := s[ChunkLength..];
      var rest := FormatWeb(tail);
      SplitTerminatorFree(s);
      FormatBreakPositions(tail);
      forall i | 0 <= i < |t| ensures t[i] == '\n' <==> (i + 1) % (ChunkLength + 1) == 0 {
        if i < ChunkLength {
          assert t[i] == s[i];
          assert !IsLineTerminator(s[i]);
        } else if i > ChunkLength {
          assert t[i] == rest[i - ChunkLength - 1];
          ModStep(i);
        }
      }
    }
  }
}
