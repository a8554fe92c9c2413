/** The first-match search the voice front ends share: an ordered table of commands, each
    with an ordered list of phrases, is scanned command by command and phrase by phrase, and
    the first phrase that occurs in the text wins. */
module PhraseTable {
  import opened Maybe
  import opened JsString

  /** Command names with their phrases, in the order `Object.entries` lists them. */
  type Table = seq<(string, seq<string>)>

  /** Phrase `p` of command `c` occurs in `text`. */
  predicate Hit(table: Table, text: string, c: nat, p: nat) {
    c < |table| && p < |table[c].1| && Includes(text, table[c].1[p])
  }

  /** The nested loops visit phrase `(c, p)` before phrase `(c2, p2)`. */
  predicate Before(c: nat, p: nat, c2: nat, p2: nat) {
    c < c2 || (c == c2 && p < p2)
  }

  /** `r` is the first phrase of the table that occurs in `text`, or `None` when no phrase
      of the table occurs in it. */
  ghost predicate IsFirstHit(table: Table, text: string, r: Option<(nat, nat)>) {
    match r
    case None => forall c: nat, p: nat :: !Hit(table, text, c, p)
    case Some(cp) =>
      && Hit(table, text, cp.0, cp.1)
      && forall c: nat, p: nat :: Before(c, p, cp.0, cp.1) ==> !Hit(table, text, c, p)
  }

  /** `for (const [command, phrases] of Object.entries(table)) for (const phrase of phrases)
      if (text.includes(phrase)) return ...; return null`. */
  method FirstHit(table: Table, text: string) returns (r: Option<(nat, nat)>)
    ensures IsFirstHit(table, text, r)
  {
    var c := 0;
    while c < |table|
      invariant c <= |table|
      invariant forall c': nat, p: nat :: c' < c ==> !Hit(table, text, c', p)
    {
      var phrases := table[c].1;
      var p := 0;
      while p < |phrases|
        invariant p <= |phrases|
        invariant forall p': nat :: p' < p ==> !Hit(table, text, c, p')
      {
        if Includes(text, phrases[p]) {
          return Some((c, p));
        }
        p := p + 1;
      }
      c := c + 1;
    }
    return None;
  }

  /** The first hit is determined by the table and the text. */
  lemma FirstHitUnique(table: Table, text: string, r1: Option<(nat, nat)>, r2: Option<(nat, nat)>)
    requires IsFirstHit(table, text, r1) && IsFirstHit(table, text, r2)
    ensures r1 == r2
  {
    if r1.Some? && r2.Some? {
      var (c1, p1) := r1.value;
      var (c2, p2) := r2.value;
      assert !Before(c1, p1, c2, p2) by {
        if Before(c1, p1, c2, p2) {
          assert false;
        }
      }
      assert !Before(c2, p2, c1, p1) by {
        if Before(c2, p2, c1, p1) {
          assert false;
        }
      }
    }
  }

  /** There is no hit exactly when no phrase of the table occurs in the text. */
  lemma FirstHitNone(table: Table, text: string, r: Option<(nat, nat)>)
    requires IsFirstHit(table, text, r)
    ensures r.None? <==> forall c, p :: 0 <= c < |table| && 0 <= p < |table[c].1| ==> !Includes(text, table[c].1[p])
  {
    if r.Some? {
      assert Hit(table, text, r.value.0, r.value.1);
    } else {
      forall c, p | 0 <= c < |table| && 0 <= p < |table[c].1| ensures !Includes(text, table[c].1[p]) {
        assert !Hit(table, text, c, p);
      }
    }
  }

  /** Every phrase of the table is free of upper-case letters. */
  predicate LowerCaseTable(table: Table) {
    forall c, p :: 0 <= c < |table| && 0 <= p < |table[c].1| ==> NoUpper(table[c].1[p])
  }

  /** How a transcript is prepared before the search: `toLowerCase().trim()`. */
  function Key(transcript: string): string { Trim(ToLower(transcript)) }

  /** Upper-casing a transcript does not change its key, so a match never depends on the
      case the transcript was written in. */
  lemma KeyIgnoresCase(transcript: string)
    ensures Key(ToUpper(transcript)) == Key(transcript)
  {
    var a, b := ToLower(ToUpper(transcript)), ToLower(transcript);
    assert forall i :: 0 <= i < |a| ==> a[i] == b[i];
    assert a == b;
  }
}
