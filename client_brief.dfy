/** The client brief form: five text fields and an optional list of uploaded
    floor plans. Its submit handler checks one thing only, the brief's length. */
module ClientBrief {
  import opened Wrappers
  import opened Toasts
  import opened Decimal

  datatype Field = Name | Email | Phone | Location | Brief

  datatype Draft = Draft(name: string, email: string, phone: string, location: string, brief: string)

  const EmptyDraft: Draft := Draft("", "", "", "", "")

  /** The largest brief the handler accepts, in UTF-16 code units. */
  const BriefLimit: nat := 2000

  /** A string's `length` in JavaScript: one code unit for a character of the Basic
      Multilingual Plane, two (a surrogate pair) for a character above it. */
  function Utf16Length(s: string): (n: nat)
    ensures |s| <= n <= 2 * |s|
    decreases |s|
  {
    if s == [] then 0 else (if s[0] as int >= 0x1_0000 then 2 else 1) + Utf16Length(s[1..])
  }

  lemma {:induction false} Utf16LengthAppend(a: string, b: string)
    ensures Utf16Length(a + b) == Utf16Length(a) + Utf16Length(b)
    decreases |a|
  {
    if a == [] {
      assert a + b == b;
    } else {
      assert (a + b)[0] == a[0];
      assert (a + b)[1..] == a[1..] + b;
      Utf16LengthAppend(a[1..], b);
    }
  }

  /** A text of Basic Multilingual Plane characters has one code unit per character. */
  lemma {:induction false} BmpLength(s: string)
    requires forall i :: 0 <= i < |s| ==> s[i] as int < 0x1_0000
    ensures Utf16Length(s) == |s|
    decreases |s|
  {
    if s != [] {
      BmpLength(s[1..]);
    }
  }

  /** A text of characters above that plane has two code units per character. */
  lemma {:induction false} AstralLength(s: string)
    requires forall i :: 0 <= i < |s| ==> s[i] as int >= 0x1_0000
    ensures Utf16Length(s) == 2 * |s|
    decreases |s|
  {
    if s != [] {
      AstralLength(s[1..]);
    }
  }

  function Get(d: Draft, f: Field): string {
    match f
    case Name => d.name
    case Email => d.email
    case Phone => d.phone
    case Location => d.location
    case Brief => d.brief
  }

  /** What each input's `onChange` does: `{ ...formData, <field>: value }`. */
  function Set(d: Draft, f: Field, v: string): (r: Draft)
    ensures Get(r, f) == v
    ensures forall g :: g != f ==> Get(r, g) == Get(d, g)
  {
    match f
    case Name => d.(name := v)
    case Email => d.(email := v)
    case Phone => d.(phone := v)
    case Location => d.(location := v)
    case Brief => d.(brief := v)
  }

  /** The submit check. */
  predicate WithinLimit(d: Draft)
    ensures WithinLimit(d) ==> |d.brief| <= BriefLimit
    ensures 2 * |d.brief| <= BriefLimit ==> WithinLimit(d)
  {
    !(Utf16Length(d.brief) > BriefLimit)
  }

  /** Only the brief's length matters: no field is required and there is no
      lower bound, so a brief of 0 up to 2000 code units, and nothing beyond, passes. */
  lemma AcceptanceIsLengthOnly(d: Draft, f: Field, v: string)
    ensures WithinLimit(d) <==> Utf16Length(Get(d, Brief)) <= BriefLimit
    ensures f != Brief ==> WithinLimit(Set(d, f, v)) == WithinLimit(d)
    ensures WithinLimit(EmptyDraft)
  {
  }

  /** The boundary: 2000 code units pass, 2001 do not; for text within the Basic
      Multilingual Plane that is 2000 and 2001 characters. */
  lemma LimitBoundary(s: string)
    ensures Utf16Length(s) == BriefLimit ==> WithinLimit(EmptyDraft.(brief := s))
    ensures Utf16Length(s) == BriefLimit + 1 ==> !WithinLimit(EmptyDraft.(brief := s))
    ensures (forall i :: 0 <= i < |s| ==> s[i] as int < 0x1_0000) ==>
              (WithinLimit(EmptyDraft.(brief := s)) <==> |s| <= BriefLimit)
  {
    if forall i :: 0 <= i < |s| ==> s[i] as int < 0x1_0000 {
      BmpLength(s);
    }
  }

  /** The rejection toast and the field label speak of words, but the check
      counts code units: a single word of 2001 letters is rejected. */
  lemma OneWordOverLimit()
    ensures var d := EmptyDraft.(brief := seq(2001, _ => 'a'));
            (forall i :: 0 <= i < |d.brief| ==> d.brief[i] != ' ') && !WithinLimit(d)
  {
    BmpLength(seq(2001, _ => 'a'));
  }

  /** A character above the Basic Multilingual Plane counts twice: 1000 emoji and
      one letter are 1001 characters but 2001 code units, and are rejected. */
  lemma AstralCharactersCountTwice()
    ensures var s := seq(1000, _ => '\U{1F600}') + "a";
            |s| == 1001 && Utf16Length(s) == 2001 && !WithinLimit(EmptyDraft.(brief := s))
  {
    var e := seq(1000, _ => '\U{1F600}');
    AstralLength(e);
    BmpLength("a");
    Utf16LengthAppend(e, "a");
  }

  const TooLongToast: Toast := Toast(Error, "Brief exceeds 2000 words limit", "")
  const SubmittedToast: Toast := Toast(Success, "Your project brief has been submitted successfully!", "")

  /** The counter shown under the brief: its `length`. */
  function CounterText(d: Draft): (s: string)
    ensures var digits := NatToString(Utf16Length(d.brief));
            |s| > |digits| && s[..|digits|] == digits && AllDigits(digits) &&
            ParseNat(digits) == Utf16Length(d.brief) && s[|digits|..] == " / 2000 characters"
  {
    ParseNatToString(Utf16Length(d.brief));
    NatToString(Utf16Length(d.brief)) + " / 2000 characters"
  }

  class BriefForm {
    var formData: Draft
    /** The selected files; `None` when no file list is held. */
    var files: Option<seq<string>>

    constructor ()
      ensures formData == EmptyDraft && files == None
    {
      formData := EmptyDraft;
      files := None;
    }

    method SetField(f: Field, v: string)
      modifies this
      ensures formData == Set(old(formData), f, v) && files == old(files)
    {
      formData := Set(formData, f, v);
    }

    /** The file input's `onChange`, which stores whatever list the input holds. */
    method SelectFiles(fs: Option<seq<string>>)
      modifies this
      ensures files == fs && formData == old(formData)
    {
      files := fs;
    }

    /** The submit handler: an over-long brief is rejected and nothing changes;
        otherwise every field is emptied and the file list dropped. */
    method HandleSubmit() returns (toast: Toast)
      modifies this
      ensures toast == if WithinLimit(old(formData)) then SubmittedToast else TooLongToast
      ensures IsFailure(toast) <==> Utf16Length(old(formData).brief) > BriefLimit
      ensures WithinLimit(old(formData)) ==> formData == EmptyDraft && files == None
      ensures !WithinLimit(old(formData)) ==> formData == old(formData) && files == old(files)
    {
      if Utf16Length(formData.brief) > BriefLimit {
        return TooLongToast;
      }
      toast := SubmittedToast;
      formData := EmptyDraft;
      files := None;
    }
  }
}
