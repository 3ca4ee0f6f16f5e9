/** Facts about the lookup tables of module Constants. */
module ConstantsProps {
  import opened Wrappers
  import opened Constants

  /**
   * The relational level of the parser tests the name 'OP_GRTEQ', which no
   * kind carries (the greater-or-equal kind is named 'OP_GR'): the test
   * never succeeds.
   */
  lemma NoKindNamedOpGrtEq(k: Kind)
    ensures KindName(k) != "OP_GRTEQ"
  {
  }

  /** The for-loop header tests 'DT_INT' and 'DT_FLOAT', which no kind carries. */
  lemma NoKindNamedDtInt(k: Kind)
    ensures KindName(k) != "DT_INT"
  {
  }

  lemma NoKindNamedDtFloat(k: Kind)
    ensures KindName(k) != "DT_FLOAT"
  {
  }

  /** Membership in the digit string is the digit range. */
  lemma DigitsMembership(c: char)
    ensures c in Digits <==> IsDigit(c)
  {
    if IsDigit(c) {
      var k := c as int - '0' as int;
      assert Digits[k] == c;
    }
  }

  lemma LowerMembership(c: char)
    ensures c in LowerLetters <==> 'a' <= c <= 'z'
  {
    if 'a' <= c <= 'z' {
      var k := c as int - 'a' as int;
      assert LowerLetters[k] == c;
    }
  }

  lemma UpperMembership(c: char)
    ensures c in UpperLetters <==> 'A' <= c <= 'Z'
  {
    if 'A' <= c <= 'Z' {
      var k := c as int - 'A' as int;
      assert UpperLetters[k] == c;
    }
  }

  lemma LettersMembership(c: char)
    ensures c in Letters <==> IsLetter(c)
  {
    LowerMembership(c);
    UpperMembership(c);
  }

  /** ALPHANUMERIC is the ten digits followed by the 52 ASCII letters, nothing else. */
  lemma AlphanumericMembership(c: char)
    ensures |Alphanumeric| == 62
    ensures c in Alphanumeric <==> IsAlphanumeric(c)
  {
    DigitsMembership(c);
    LettersMembership(c);
  }

  /** DATA_TYPES maps exactly the five type names, each to its own data-type kind. */
  lemma DataTypesTable(name: string)
    ensures name in DataTypes <==> name in ["char", "int", "float", "string", "bool"]
    ensures "char" in DataTypes && DataTypes["char"] == DatatypeChar
    ensures "int" in DataTypes && DataTypes["int"] == DatatypeInt
    ensures "float" in DataTypes && DataTypes["float"] == DatatypeFloat
    ensures "string" in DataTypes && DataTypes["string"] == DatatypeStr
    ensures "bool" in DataTypes && DataTypes["bool"] == DatatypeBool
  {
  }

  /** Every macro name begins with an upper-case C. */
  lemma KeywordsStartWithC(name: string)
    requires name in Keywords
    ensures |name| >= 3 && name[0] == 'C'
  {
  }

  /** No data-type name or reserved word begins with an upper-case C. */
  lemma OthersDoNotStartWithC(name: string)
    requires name in DataTypes || name in ReservedWords
    ensures |name| >= 2 && name[0] != 'C'
  {
  }

  /** KEYWORDS lists 37 macro names, none of them twice. */
  lemma KeywordsTable()
    ensures |Keywords| == 37
    ensures forall i, j | 0 <= i < j < |Keywords| :: Keywords[i] != Keywords[j]
  {
    forall i, j | 0 <= i < j < |Keywords| ensures Keywords[i] != Keywords[j] {
      KeywordsDistinctFrom(i, j);
    }
  }

  /** The pairs of KEYWORDS whose first entry lies in one block of the table. */
  lemma KeywordsDistinctFrom(i: nat, j: nat)
    requires i < j < |Keywords|
    ensures Keywords[i] != Keywords[j]
  {
    if i < 10 {
      KeywordsDistinctBelow10(i, j);
    } else if i < 20 {
      KeywordsDistinctBelow20(i, j);
    } else {
      KeywordsDistinctAbove20(i, j);
    }
  }

  lemma KeywordsDistinctBelow10(i: nat, j: nat)
    requires i < 10 && i < j < |Keywords|
    ensures Keywords[i] != Keywords[j]
  {
  }

  lemma KeywordsDistinctBelow20(i: nat, j: nat)
    requires 10 <= i < 20 && i < j < |Keywords|
    ensures Keywords[i] != Keywords[j]
  {
  }

  lemma KeywordsDistinctAbove20(i: nat, j: nat)
    requires 20 <= i && i < j < |Keywords|
    ensures Keywords[i] != Keywords[j]
  {
  }

  /** The three keyword tables share no name. */
  lemma TablesDisjoint(name: string)
    ensures name in DataTypes ==> name !in ReservedWords && name !in Keywords
    ensures name in ReservedWords ==> name !in Keywords
  {
    if name in Keywords {
      KeywordsStartWithC(name);
      if name in DataTypes || name in ReservedWords {
        OthersDoNotStartWithC(name);
      }
    }
    if name in DataTypes {
      assert name in ["char", "int", "float", "string", "bool"];
    }
  }

  /** `true` and `false` are reserved words and boolean words at once. */
  lemma BooleanWordsAreReserved()
    ensures "true" in BoolTypes && "true" in ReservedWords
    ensures "false" in BoolTypes && "false" in ReservedWords
  {
  }
}
