/** The student record's derived, display-only properties
    (Models/Student.cs): the full name and the avatar initials.  Only the
    three fields they read are modelled. */
module Students {
  import opened Wrappers
  import opened Text

  datatype Student = Student(rollNumber: seq<char>, firstName: seq<char>, lastName: seq<char>)

  /** First and last name joined by one space, whether or not either is
      empty. */
  function FullName(st: Student): (r: seq<char>)
    ensures |r| == |st.firstName| + 1 + |st.lastName|
    ensures r[..|st.firstName|] == st.firstName
    ensures r[|st.firstName|] == ' '
    ensures r[|st.firstName| + 1..] == st.lastName
  {
    st.firstName + " " + st.lastName
  }

  /** The position of the first space in `s`, if any. */
  function FirstSpace(s: seq<char>): (r: Option<nat>)
    ensures r.Some? ==> r.value < |s| && s[r.value] == ' ' && ' ' !in s[..r.value]
    ensures r.None? ==> ' ' !in s
  {
    if s == [] then None
    else if s[0] == ' ' then Some(0)
    else match FirstSpace(s[1..])
      case None => None
      case Some(i) => Some(i + 1)
  }

  /** Reads a full name back as a first and a last name, cutting at the
      first space. */
  function SplitFullName(name: seq<char>): (r: Option<(seq<char>, seq<char>)>)
    ensures r.Some? ==> name == r.value.0 + " " + r.value.1 && ' ' !in r.value.0
    ensures r.None? ==> ' ' !in name
  {
    match FirstSpace(name)
    case None => None
    case Some(i) => Some((name[..i], name[i + 1..]))
  }

  /** A full name gives back its parts whenever the first name contains no
      space; the last name may contain any characters. */
  lemma FullNameRoundTrip(st: Student)
    requires ' ' !in st.firstName
    ensures SplitFullName(FullName(st)) == Some((st.firstName, st.lastName))
  {
  }

  /** With a space inside the first name the full name is ambiguous: two
      different students can share one. */
  lemma FullNameAmbiguous()
    ensures FullName(Student("", "Ada B", "C")) == FullName(Student("", "Ada", "B C"))
  {
  }

  /** The upper-cased first non-blank character of a name that is not
      blank. */
  function Lead(s: seq<char>): char
    requires !IsBlank(s)
  {
    ToUpper(s[FirstSolid(s)])
  }

  /** The avatar initials: the upper-cased first non-blank character of the
      first name and then of the last name, skipping a blank name; when
      both names are blank, the upper-cased first character of a non-blank
      roll number, taken without trimming; otherwise the empty string. */
  function Initials(st: Student): (r: seq<char>)
    ensures |r| <= 2
    ensures !IsBlank(st.firstName) ==> |r| >= 1 && r[0] == Lead(st.firstName)
    ensures !IsBlank(st.firstName) && !IsBlank(st.lastName) ==>
      |r| == 2 && r[1] == Lead(st.lastName)
    ensures !IsBlank(st.firstName) && IsBlank(st.lastName) ==> |r| == 1
    ensures IsBlank(st.firstName) && !IsBlank(st.lastName) ==> r == [Lead(st.lastName)]
    ensures IsBlank(st.firstName) && IsBlank(st.lastName) ==>
      r == if IsBlank(st.rollNumber) then [] else [ToUpper(st.rollNumber[0])]
  {
    var first := if IsBlank(st.firstName) then [] else Trim(st.firstName);
    var last := if IsBlank(st.lastName) then [] else Trim(st.lastName);
    var initials := (if first != [] then [ToUpper(first[0])] else [])
                    + (if last != [] then [ToUpper(last[0])] else []);
    if initials == [] && !IsBlank(st.rollNumber) then [ToUpper(st.rollNumber[0])]
    else initials
  }

  /** The roll-number fallback does not skip leading white space: a roll
      number " 7A" gives the initial " ". */
  lemma RollFallbackIsUntrimmed()
    ensures Initials(Student(" 7A", "", "  ")) == " "
  {
    var roll := " 7A";
    assert !IsWhiteSpace(roll[1]);
  }
}
