/**
 * The farmer's document checklist (`Farmer.jsx`): which documents a scheme
 * needs, which of them the user has confirmed, toggling a confirmation, and
 * what uploading a document records.
 */
module FarmerDocs {
  import opened Options
  import opened Text
  import opened Farmer
  import Aadhaar

  /** `getRequiredDocsForScheme` (and the same table inside
      `validateDocsForScheme`), keyed by the scheme's category. */
  function RequiredDocs(category: string): (docs: seq<string>)
    ensures |docs| >= 2 && docs[0] == "aadhaar"
    ensures "bank" in docs <==> category == "financial" || category == "loan"
    ensures "land" in docs <==> category != "financial"
    ensures forall d :: d in docs ==> d == "aadhaar" || d == "bank" || d == "land"
    ensures forall i, j :: 0 <= i < j < |docs| ==> docs[i] != docs[j]
  {
    if category == "financial" then ["aadhaar", "bank"]
    else if category == "loan" then ["aadhaar", "bank", "land"]
    // "insurance", "productivity" and every other category
    else ["aadhaar", "land"]
  }

  /** `hasDocument`: the user has explicitly confirmed the document. */
  predicate HasDocument(p: Profile, doc: string)
    ensures HasDocument(p, doc) ==> doc in p.docs.confirmed
    ensures p.docs.confirmed == map[] ==> !HasDocument(p, doc)
  {
    doc in p.docs.confirmed && p.docs.confirmed[doc]
  }

  /** The required documents not confirmed, in the order required. */
  function Missing(required: seq<string>, p: Profile): (m: seq<string>)
    ensures |m| <= |required|
    ensures forall d :: d in m <==> d in required && !HasDocument(p, d)
    ensures required != [] && !HasDocument(p, required[0]) ==> m != [] && m[0] == required[0]
    ensures |required| == 1 ==> m == Absent(p, required[0])
    decreases |required|
  {
    if required == [] then []
    else (if HasDocument(p, required[0]) then [] else [required[0]]) + Missing(required[1..], p)
  }

  /** The one-document missing list: empty when it is confirmed. */
  function Absent(p: Profile, doc: string): seq<string> {
    if HasDocument(p, doc) then [] else [doc]
  }

  /** Filtering a concatenation filters each part in turn, so the missing
      list keeps the order of the required list. */
  lemma {:induction false} MissingAppend(a: seq<string>, b: seq<string>, p: Profile)
    ensures Missing(a + b, p) == Missing(a, p) + Missing(b, p)
    decreases |a|
  {
    if a == [] {
      assert a + b == b;
    } else {
      assert (a + b)[0] == a[0] && (a + b)[1..] == a[1..] + b;
      MissingAppend(a[1..], b, p);
    }
  }

  datatype DocCheck = DocCheck(ok: bool, missing: seq<string>)

  /** `validateDocsForScheme`. */
  function ValidateDocs(p: Profile, s: Scheme): (r: DocCheck)
    ensures forall d :: d in r.missing <==> d in RequiredDocs(s.category) && !HasDocument(p, d)
    ensures r.ok <==> r.missing == []
    ensures r.ok <==> forall d :: d in RequiredDocs(s.category) ==> HasDocument(p, d)
    ensures !HasDocument(p, "aadhaar") ==> !r.ok && r.missing[0] == "aadhaar"
  {
    var missing := Missing(RequiredDocs(s.category), p);
    assert missing != [] ==> missing[0] in missing;
    DocCheck(|missing| == 0, missing)
  }

  /** With nothing confirmed, every required document is missing. */
  lemma {:induction false} NothingConfirmedAllMissing(required: seq<string>, p: Profile)
    requires p.docs.confirmed == map[]
    ensures Missing(required, p) == required
    decreases |required|
  {
    if required != [] {
      NothingConfirmedAllMissing(required[1..], p);
      assert required == [required[0]] + required[1..];
    }
  }

  /** A fresh profile (`emptyProfile`, whose `docs` is empty) fails every
      scheme's document check, with all of the category's documents listed
      in order. */
  lemma EmptyProfileMissesAll(s: Scheme)
    ensures ValidateDocs(EmptyProfile, s) == DocCheck(false, RequiredDocs(s.category))
  {
    NothingConfirmedAllMissing(RequiredDocs(s.category), EmptyProfile);
  }

  /** The missing documents are listed in the order the category requires
      them: Aadhaar, then the bank document, then land proof. */
  lemma MissingInRequiredOrder(p: Profile, s: Scheme)
    ensures s.category == "financial" ==>
              ValidateDocs(p, s).missing == Absent(p, "aadhaar") + Absent(p, "bank")
    ensures s.category == "loan" ==>
              ValidateDocs(p, s).missing == Absent(p, "aadhaar") + Absent(p, "bank") + Absent(p, "land")
    ensures s.category != "financial" && s.category != "loan" ==>
              ValidateDocs(p, s).missing == Absent(p, "aadhaar") + Absent(p, "land")
  {
    var a, b, l := ["aadhaar"], ["bank"], ["land"];
    MissingAppend(a, b, p);
    MissingAppend(a, l, p);
    MissingAppend(a + b, l, p);
    if s.category == "financial" {
      assert RequiredDocs(s.category) == a + b;
    } else if s.category == "loan" {
      assert RequiredDocs(s.category) == a + b + l;
    } else {
      assert RequiredDocs(s.category) == a + l;
    }
  }

  /** The missing list depends on the confirmations alone. */
  lemma {:induction false} MissingDependsOnConfirmations(required: seq<string>, p: Profile, q: Profile)
    requires forall d :: HasDocument(p, d) == HasDocument(q, d)
    ensures Missing(required, p) == Missing(required, q)
    decreases |required|
  {
    if required != [] {
      MissingDependsOnConfirmations(required[1..], p, q);
    }
  }

  /** `toggleConfirmDoc`: negates one confirmation and changes nothing else. */
  function ToggleConfirm(p: Profile, doc: string): (q: Profile)
    ensures HasDocument(q, doc) == !HasDocument(p, doc)
    ensures forall d :: d != doc ==>
              (d in q.docs.confirmed <==> d in p.docs.confirmed)
              && (d in p.docs.confirmed ==> q.docs.confirmed[d] == p.docs.confirmed[d])
    ensures q == p.(docs := p.docs.(confirmed := q.docs.confirmed))
  {
    p.(docs := p.docs.(confirmed := p.docs.confirmed[doc := !HasDocument(p, doc)]))
  }

  /** Toggling the same document twice restores every confirmation's truth
      and so every scheme's check. */
  lemma ToggleTwice(p: Profile, doc: string, s: Scheme)
    ensures forall d :: HasDocument(ToggleConfirm(ToggleConfirm(p, doc), doc), d) == HasDocument(p, d)
    ensures ValidateDocs(ToggleConfirm(ToggleConfirm(p, doc), doc), s) == ValidateDocs(p, s)
  {
    var q := ToggleConfirm(ToggleConfirm(p, doc), doc);
    MissingDependsOnConfirmations(RequiredDocs(s.category), q, p);
  }

  /** How the browser classifies an uploaded file. */
  datatype FileKind = Image | Pdf | OtherFile

  datatype File = File(name: string, size: nat, kind: FileKind)

  /** The confirmations after an upload of the given kind: an Aadhaar image
      or PDF confirms "aadhaar". */
  function ConfirmAadhaarIf(confirmed: map<string, bool>, docType: string): map<string, bool> {
    if docType == "aadhaar" then confirmed["aadhaar" := true] else confirmed
  }

  /** `handleDocUpload` with the upload stored under `key` and `ocr` the text
      OCR returned for an image (None when OCR failed or was not run). The
      metadata is added to `profile.docs` in every case, since the copy shares
      that object with the profile. */
  function UploadDocument(p: Profile, key: string, file: File, docType: string, ocr: Option<string>): (q: Profile)
    ensures key in q.docs.uploads
    ensures q.docs.uploads[key] == Upload(file.name, file.size, docType, if file.kind == Image then ocr else None)
    ensures forall k :: k != key ==> (k in q.docs.uploads <==> k in p.docs.uploads)
    ensures forall k :: k != key && k in p.docs.uploads ==> q.docs.uploads[k] == p.docs.uploads[k]
    ensures docType != "aadhaar" ==> q.docs.confirmed == p.docs.confirmed
    ensures docType == "aadhaar" && (file.kind == Pdf || (file.kind == Image && ocr.Some?)) ==>
              q.docs.confirmed == p.docs.confirmed["aadhaar" := true]
    ensures docType == "aadhaar" && (file.kind == Pdf || (file.kind == Image && ocr.Some?)) ==>
              HasDocument(q, "aadhaar")
    ensures forall d :: d != "aadhaar" ==> HasDocument(q, d) == HasDocument(p, d)
    ensures !(file.kind == Pdf || (file.kind == Image && ocr.Some?)) ==>
              q.docs.confirmed == p.docs.confirmed
    ensures file.kind == Image && ocr.Some? && Aadhaar.Extract(ocr.value).Some? ==>
              q.aadhaar == Aadhaar.Extract(ocr.value).value
    ensures file.kind == Image && ocr.Some? && Aadhaar.Extract(ocr.value).None? ==> q.aadhaar == p.aadhaar
    ensures !(file.kind == Image && ocr.Some?) ==> q.aadhaar == p.aadhaar
    ensures q.aadhaar != p.aadhaar ==> |q.aadhaar| == 12 && AllDigits(q.aadhaar)
    ensures q == p.(aadhaar := q.aadhaar, docs := q.docs)
  {
    var meta := Upload(file.name, file.size, docType, None);
    match file.kind
    case Image =>
      (match ocr
       case None =>
         p.(docs := p.docs.(uploads := p.docs.uploads[key := meta]))
       case Some(text) =>
         var number := Aadhaar.Extract(text);
         p.(aadhaar := if number.Some? then number.value else p.aadhaar,
            docs := Docs(p.docs.uploads[key := meta.(ocr := Some(text))],
                         ConfirmAadhaarIf(p.docs.confirmed, docType)))
      )
    case Pdf =>
      p.(docs := Docs(p.docs.uploads[key := meta], ConfirmAadhaarIf(p.docs.confirmed, docType)))
    case OtherFile =>
      p.(docs := p.docs.(uploads := p.docs.uploads[key := meta]))
  }

  /** Uploading a bank or land document does not make it count: only an
      explicit confirmation does, so every scheme's check is unchanged. */
  lemma UploadAloneDoesNotConfirm(p: Profile, key: string, file: File, docType: string,
                                  ocr: Option<string>, s: Scheme)
    requires docType != "aadhaar"
    ensures ValidateDocs(UploadDocument(p, key, file, docType, ocr), s) == ValidateDocs(p, s)
  {
    MissingDependsOnConfirmations(RequiredDocs(s.category), UploadDocument(p, key, file, docType, ocr), p);
  }

  /** The aggregate checklist shown above the results: every document some
      eligible scheme requires (`reqSet`). */
  function ChecklistDocs(eligible: seq<Scheme>): (r: set<string>)
    ensures r <= {"aadhaar", "bank", "land"}
    ensures eligible != [] ==> "aadhaar" in r
    decreases |eligible|
  {
    if eligible == [] then {}
    else ChecklistDocs(eligible[..|eligible| - 1]) + RequiredSet(eligible[|eligible| - 1].category)
  }

  /** A document is on the checklist exactly when some eligible scheme
      requires it. */
  lemma {:induction false} ChecklistMembers(eligible: seq<Scheme>, d: string)
    ensures d in ChecklistDocs(eligible) <==>
              exists i :: 0 <= i < |eligible| && d in RequiredDocs(eligible[i].category)
    decreases |eligible|
  {
    if eligible != [] {
      var n := |eligible| - 1;
      var init := eligible[..n];
      var last := RequiredSet(eligible[n].category);
      assert ChecklistDocs(eligible) == ChecklistDocs(init) + last;
      assert d in last <==> d in RequiredDocs(eligible[n].category);
      ChecklistMembers(init, d);
      if d in ChecklistDocs(init) {
        var i :| 0 <= i < |init| && d in RequiredDocs(init[i].category);
        assert eligible[i] == init[i];
      } else if d in RequiredDocs(eligible[n].category) {
      } else {
        forall i | 0 <= i < |eligible|
          ensures d !in RequiredDocs(eligible[i].category)
        {
          if i < n {
            assert eligible[i] == init[i];
          }
        }
      }
    }
  }

  /** The documents of `RequiredDocs` as a set. */
  function RequiredSet(category: string): (r: set<string>)
    ensures forall d :: d in r <==> d in RequiredDocs(category)
  {
    if category == "financial" then {"aadhaar", "bank"}
    else if category == "loan" then {"aadhaar", "bank", "land"}
    else {"aadhaar", "land"}
  }

  /** Confirming everything on the checklist clears every eligible scheme's
      document check. */
  lemma ChecklistSuffices(p: Profile, eligible: seq<Scheme>, s: Scheme)
    requires forall d :: d in ChecklistDocs(eligible) ==> HasDocument(p, d)
    requires s in eligible
    ensures ValidateDocs(p, s).ok
  {
    var i :| 0 <= i < |eligible| && eligible[i] == s;
    forall d | d in RequiredDocs(s.category)
      ensures HasDocument(p, d)
    {
      ChecklistMembers(eligible, d);
    }
  }
}
