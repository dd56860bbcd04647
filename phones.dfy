/**
 * Recipient handling: the mobile-number rule `^1\d{10}$`, the per-phone check
 * that throws on the first bad number, and the order-preserving removal of
 * repeated numbers (`new ArrayList<>(new LinkedHashSet<>(phones))`).
 */
module Phones {
  import opened Wrappers
  import opened Strings
  import opened SmsTypes
  import TemplateCodes

  /**
   * The whole string matches `^1\d{10}$`: eleven chars, a leading '1', then
   * ten ASCII digits (`\d` carries its default, ASCII-only meaning).
   */
  predicate IsMobileNumber(phone: string) {
    |phone| == 11 && phone[0] == '1' && forall i :: 1 <= i < 11 ==> TemplateCodes.IsDigit(phone[i])
  }

  /** `validatePhone`: blank or not matching the pattern throws InvalidPhone. */
  function ValidatePhone(phone: string): (r: Outcome<Error>)
    ensures r.Pass? <==> IsMobileNumber(phone)
    ensures r.Fail? ==> r.error == InvalidPhone(phone)
  {
    if IsBlank(phone) || !IsMobileNumber(phone) then Fail(InvalidPhone(phone)) else Pass
  }

  /**
   * The batch loop that validates the deduplicated phones in order and stops
   * at the first that fails: the position it stops at, or |phones| if none fails.
   */
  function FirstInvalidIndex(phones: seq<string>): (k: nat)
    ensures k <= |phones|
    ensures forall i :: 0 <= i < k ==> IsMobileNumber(phones[i])
    ensures k < |phones| ==> !IsMobileNumber(phones[k])
  {
    if phones == [] || ValidatePhone(phones[0]).Fail? then 0
    else 1 + FirstInvalidIndex(phones[1..])
  }

  /** The phone the validation loop throws on, if any. */
  function FirstInvalidPhone(phones: seq<string>): (r: Option<string>)
    ensures r.None? <==> forall i :: 0 <= i < |phones| ==> IsMobileNumber(phones[i])
    ensures r.Some? ==> exists k :: 0 <= k < |phones| && phones[k] == r.value && FirstInvalidIndex(phones) == k
  {
    var k := FirstInvalidIndex(phones);
    if k < |phones| then Some(phones[k]) else None
  }

  /** No value occurs twice. */
  predicate NoDuplicates(s: seq<string>) {
    forall i, j :: 0 <= i < j < |s| ==> s[i] != s[j]
  }

  /** Every occurrence of `y` in `s` is preceded by an occurrence of `x`. */
  predicate SeenBefore(s: seq<string>, x: string, y: string) {
    forall k :: 0 <= k < |s| && s[k] == y ==> x in s[..k]
  }

  /**
   * `deduplicatePhones`: each distinct phone once, in the order of its first
   * occurrence (a `LinkedHashSet` keeps insertion order and ignores repeats).
   */
  function Dedup(phones: seq<string>): (r: seq<string>)
    ensures |r| <= |phones|
    ensures forall x :: x in r <==> x in phones
  {
    if phones == [] then []
    else
      var seen := Dedup(phones[..|phones| - 1]);
      var last := phones[|phones| - 1];
      assert phones == phones[..|phones| - 1] + [last];
      if last in seen then seen else seen + [last]
  }

  /**
   * What a `LinkedHashSet` promises: the deduplicated list holds no phone
   * twice, and its phones come in the order of their first occurrence.
   */
  lemma {:induction false} DedupFirstOccurrenceOrder(phones: seq<string>)
    ensures NoDuplicates(Dedup(phones))
    ensures forall i, j :: 0 <= i < j < |Dedup(phones)| ==> SeenBefore(phones, Dedup(phones)[i], Dedup(phones)[j])
  {
    if phones != [] {
      var init := phones[..|phones| - 1];
      var last := phones[|phones| - 1];
      var seen := Dedup(init);
      DedupFirstOccurrenceOrder(init);
      if last in seen {
        DedupOrderKept(phones, seen, seen);
      } else {
        DedupOrderKept(phones, seen, seen + [last]);
      }
    }
  }

  /** The inductive step of Dedup's ordering clause. */
  lemma DedupOrderKept(phones: seq<string>, seen: seq<string>, r: seq<string>)
    requires phones != []
    requires forall x :: x in seen <==> x in phones[..|phones| - 1]
    requires forall i, j :: 0 <= i < j < |seen| ==> SeenBefore(phones[..|phones| - 1], seen[i], seen[j])
    requires r == seen || (r == seen + [phones[|phones| - 1]] && phones[|phones| - 1] !in seen)
    ensures forall i, j :: 0 <= i < j < |r| ==> SeenBefore(phones, r[i], r[j])
  {
    var n := |phones| - 1;
    var init := phones[..n];
    forall i, j | 0 <= i < j < |r| ensures SeenBefore(phones, r[i], r[j]) {
      forall k | 0 <= k < |phones| && phones[k] == r[j] ensures r[i] in phones[..k] {
        if k < n {
          assert phones[k] in init;
          assert init[k] == phones[k];
          assert j < |seen|;
          assert init[..k] == phones[..k];
          assert r[i] == seen[i] && r[j] == seen[j];
          assert SeenBefore(init, seen[i], seen[j]);
          assert 0 <= k < |init| && init[k] == seen[j];
          assert seen[i] in init[..k];
        } else {
          assert phones[..k] == init;
          assert r[i] == seen[i] && seen[i] in seen;
        }
      }
    }
  }

  /**
   * The validation loop over the deduplicated phones throws on the same phone
   * as a loop over the original list would: the first invalid phone has no
   * earlier occurrence, and every phone ahead of it after deduplication
   * occurs before it in the original list.
   */
  lemma {:induction false} DedupFirstInvalid(phones: seq<string>)
    ensures FirstInvalidPhone(Dedup(phones)) == FirstInvalidPhone(phones)
  {
    var unique := Dedup(phones);
    DedupAllValid(phones);
    var k := FirstInvalidIndex(phones);
    if k < |phones| {
      var p := phones[k];
      assert p in phones;
      var j :| 0 <= j < |unique| && unique[j] == p;
      DedupFirstOccurrenceOrder(phones);
      forall i | 0 <= i < j ensures IsMobileNumber(unique[i]) {
        assert SeenBefore(phones, unique[i], unique[j]);
        var m :| 0 <= m < k && phones[..k][m] == unique[i];
        assert phones[m] == unique[i];
      }
      assert FirstInvalidIndex(unique) == j;
    }
  }

  /** Validating the deduplicated phones checks every phone of the original list. */
  lemma DedupAllValid(phones: seq<string>)
    ensures (forall i :: 0 <= i < |Dedup(phones)| ==> IsMobileNumber(Dedup(phones)[i]))
            <==> (forall i :: 0 <= i < |phones| ==> IsMobileNumber(phones[i]))
  {
    var unique := Dedup(phones);
    if forall i :: 0 <= i < |unique| ==> IsMobileNumber(unique[i]) {
      forall i | 0 <= i < |phones| ensures IsMobileNumber(phones[i]) {
        assert phones[i] in phones;
        var k :| 0 <= k < |unique| && unique[k] == phones[i];
      }
    } else {
      var k :| 0 <= k < |unique| && !IsMobileNumber(unique[k]);
      assert unique[k] in unique;
      var j :| 0 <= j < |phones| && phones[j] == unique[k];
      assert !IsMobileNumber(phones[j]);
    }
  }
}
