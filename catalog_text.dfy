/**
 * Facts about the catalog's texts that the course search needs: which of them
 * hold two c's in a row. A text without that pair cannot hold "hcc" once
 * lower-cased. Each literal gets a lemma of its own, because the solver
 * evaluates one literal at a time cheaply and several together slowly.
 */
module CatalogText {
  import opened Text

  /** A 'c' in either case. */
  predicate IsC(ch: char) { ch == 'c' || ch == 'C' }

  /** No two neighbouring characters of `s` are both a 'c'. */
  predicate NoDoubleC(s: string) { forall i :: 0 <= i < |s| - 1 ==> !(IsC(s[i]) && IsC(s[i + 1])) }

  /** Without two c's in a row, the lower-cased text cannot hold "hcc". */
  lemma NoDoubleCNoHcc(t: string)
    requires NoDoubleC(t)
    ensures !Contains(Lower(t), "hcc")
  {
    forall i | 0 <= i <= |t| - 3 ensures !OccursAt(Lower(t), "hcc", i) {
      assert !(IsC(t[i + 1]) && IsC(t[i + 2]));
      assert "hcc"[1] == 'c' && "hcc"[2] == 'c';
    }
  }

  /** Joining two such texts keeps the property when the first does not end in a 'c'. */
  lemma NoDoubleCJoin(a: string, b: string)
    requires NoDoubleC(a) && NoDoubleC(b)
    requires a != [] && !IsC(a[|a| - 1])
    ensures NoDoubleC(a + b)
  {
    forall i | 0 <= i < |a + b| - 1 ensures !(IsC((a + b)[i]) && IsC((a + b)[i + 1])) {
      if i + 1 < |a| { assert (a + b)[i] == a[i] && (a + b)[i + 1] == a[i + 1]; }
      else if i >= |a| { assert (a + b)[i] == b[i - |a|] && (a + b)[i + 1] == b[i + 1 - |a|]; }
      else { assert (a + b)[i] == a[|a| - 1]; }
    }
  }

  /** Five pieces, as the catalog's descriptions are written. */
  lemma NoDoubleCPieces(a: string, b: string, c: string, d: string, e: string)
    requires NoDoubleC(a) && NoDoubleC(b) && NoDoubleC(c) && NoDoubleC(d) && NoDoubleC(e)
    requires a != [] && b != [] && c != [] && d != []
    requires !IsC(a[|a| - 1]) && !IsC(b[|b| - 1]) && !IsC(c[|c| - 1]) && !IsC(d[|d| - 1])
    ensures NoDoubleC(a + b + c + d + e)
  {
    NoDoubleCJoin(a, b);
    NoDoubleCJoin(a + b, c);
    NoDoubleCJoin(a + b + c, d);
    NoDoubleCJoin(a + b + c + d, e);
  }

  // The titles, description pieces and modules of the basic, advanced and CPC programs.

  lemma BasicTitle() ensures NoDoubleC("Basic Medical Coding Training") {}
  lemma BasicDescription1() ensures NoDoubleC("Foundation course covering ") {}
  lemma BasicDescription2() ensures NoDoubleC("medical terminology, anatomy, ") {}
  lemma BasicDescription3() ensures NoDoubleC("and introductory coding ") {}
  lemma BasicDescription4() ensures NoDoubleC("guidelines. Perfect for ") {}
  lemma BasicDescription5() ensures NoDoubleC("beginners.") {}
  lemma BasicModule1() ensures NoDoubleC("Medical Terminology") {}
  lemma BasicModule2() ensures NoDoubleC("Anatomy & Physiology") {}
  lemma BasicModule3() ensures NoDoubleC("Introduction to ICD-10") {}
  lemma BasicModule4() ensures NoDoubleC("Introduction to CPT") {}
  lemma BasicModule5() ensures NoDoubleC("Healthcare Compliance") {}

  lemma AdvanceTitle() ensures NoDoubleC("Advance Medical Coding Training") {}
  lemma AdvanceDescription1() ensures NoDoubleC("Comprehensive training for ") {}
  lemma AdvanceDescription2() ensures NoDoubleC("inpatient and outpatient ") {}
  lemma AdvanceDescription3() ensures NoDoubleC("coding, including complex ") {}
  lemma AdvanceDescription4() ensures NoDoubleC("scenarios, specialties, and ") {}
  lemma AdvanceDescription5() ensures NoDoubleC("case studies.") {}
  lemma AdvanceModule1() ensures NoDoubleC("Advanced ICD-10-CM") {}
  lemma AdvanceModule2() ensures NoDoubleC("CPT Surgery Sections") {}
  lemma AdvanceModule3() ensures NoDoubleC("E/M Coding") {}
  lemma AdvanceModule4() ensures NoDoubleC("Compliance & Auditing") {}
  lemma AdvanceModule5() ensures NoDoubleC("Specialty Coding") {}

  lemma CpcTitle() ensures NoDoubleC("CPC Training") {}
  lemma CpcDescription1() ensures NoDoubleC("Targeted preparation for the ") {}
  lemma CpcDescription2() ensures NoDoubleC("AAPC Certified Professional ") {}
  lemma CpcDescription3() ensures NoDoubleC("Coder (CPC) exam with ") {}
  lemma CpcDescription4() ensures NoDoubleC("intensive mock tests and ") {}
  lemma CpcDescription5() ensures NoDoubleC("exam strategies.") {}
  lemma CpcModule1() ensures NoDoubleC("Examination Guidelines") {}
  lemma CpcModule2() ensures NoDoubleC("Mock Exams") {}
  lemma CpcModule3() ensures NoDoubleC("Time Management") {}
  lemma CpcModule4() ensures NoDoubleC("Code Set Navigation") {}
  lemma CpcModule5() ensures NoDoubleC("Practice Questions") {}
}
