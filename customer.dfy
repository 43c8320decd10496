/**
 * The customer record and its alternative constructor `fromFullName`, which
 * splits the full name on the space character and unpacks the parts into a
 * first and a last name. Python's `str.split(' ')` is modelled exactly: it
 * cuts at every single space, so leading, trailing and doubled spaces give
 * empty parts, and the unpacking fails unless there are exactly two parts.
 */
module Customers {
  import opened Wrappers

  datatype Customer = Customer(firstName: string, lastName: string, age: int)

  /** The number of occurrences of `c` in `s`. */
  function Count(s: string, c: char): nat
    decreases |s|
  {
    if s == [] then 0 else (if s[0] == c then 1 else 0) + Count(s[1..], c)
  }

  /** `s.split(sep)` for a one-character separator. */
  function Split(s: string, sep: char): (parts: seq<string>)
    ensures |parts| == Count(s, sep) + 1
    ensures forall k :: 0 <= k < |parts| ==> sep !in parts[k]
    decreases |s|
  {
    if s == [] then [""]
    else
      var rest := Split(s[1..], sep);
      if s[0] == sep then [""] + rest
      else [[s[0]] + rest[0]] + rest[1..]
  }

  /** `sep.join(parts)`. */
  function Join(parts: seq<string>, sep: char): string
    requires |parts| >= 1
    decreases |parts|
  {
    if |parts| == 1 then parts[0] else parts[0] + [sep] + Join(parts[1..], sep)
  }

  /** Joining the parts of a split gives back the original string. */
  lemma {:induction false} JoinSplit(s: string, sep: char)
    ensures Join(Split(s, sep), sep) == s
    decreases |s|
  {
    if s != [] {
      var rest := Split(s[1..], sep);
      JoinSplit(s[1..], sep);
      if s[0] == sep {
        assert ([""] + rest)[1..] == rest;
      } else {
        var parts := [[s[0]] + rest[0]] + rest[1..];
        if |rest| > 1 {
          assert parts[1..] == rest[1..];
          assert Join(rest, sep) == rest[0] + [sep] + Join(rest[1..], sep);
        }
      }
    }
  }

  /** Splitting a join of separator-free parts gives back the parts. */
  lemma {:induction false} SplitJoin(parts: seq<string>, sep: char)
    requires |parts| >= 1
    requires forall k :: 0 <= k < |parts| ==> sep !in parts[k]
    ensures Split(Join(parts, sep), sep) == parts
    decreases |parts|
  {
    if |parts| == 1 {
      SplitFree(parts[0], sep);
    } else {
      SplitJoin(parts[1..], sep);
      SplitAround(parts[0], Join(parts[1..], sep), sep);
      assert parts == [parts[0]] + parts[1..];
    }
  }

  /** A string without the separator splits into itself alone. */
  lemma {:induction false} SplitFree(s: string, sep: char)
    requires sep !in s
    ensures Split(s, sep) == [s]
    decreases |s|
  {
    if s != [] {
      assert sep !in s[1..] by {
        forall k | 0 <= k < |s[1..]| ensures s[1..][k] != sep {
          assert s[1..][k] == s[k + 1];
        }
      }
      SplitFree(s[1..], sep);
      assert [s[0]] + s[1..] == s;
    }
  }

  /** Splitting `a + sep + b`, with `a` free of the separator, gives `a` followed by the split of `b`. */
  lemma {:induction false} SplitAround(a: string, b: string, sep: char)
    requires sep !in a
    ensures Split(a + [sep] + b, sep) == [a] + Split(b, sep)
    decreases |a|
  {
    if a == [] {
      assert a + [sep] + b == [sep] + b;
      assert ([sep] + b)[1..] == b;
    } else {
      var s := a + [sep] + b;
      assert s[1..] == a[1..] + [sep] + b;
      assert sep !in a[1..] by {
        forall k | 0 <= k < |a[1..]| ensures a[1..][k] != sep {
          assert a[1..][k] == a[k + 1];
        }
      }
      SplitAround(a[1..], b, sep);
      assert [a[0]] + a[1..] == a;
    }
  }

  /** `Customer.fromFullName`: split on ' ' and unpack into exactly two names. */
  function FromFullName(fullName: string, age: int): (r: Result<Customer>)
    ensures r.Success? <==> Count(fullName, ' ') == 1
    ensures r.Failure? ==> r.error == ValueError
    ensures r.Success? ==> r.value.age == age
  {
    var parts := Split(fullName, ' ');
    if |parts| == 2 then Success(Customer(parts[0], parts[1], age)) else Failure(ValueError)
  }

  /** A successful split gives two space-free names whose join, with one space, is the full name. */
  lemma FromFullNameSplitsAtTheSpace(fullName: string, age: int)
    requires FromFullName(fullName, age).Success?
    ensures var c := FromFullName(fullName, age).value;
            && ' ' !in c.firstName && ' ' !in c.lastName
            && c.firstName + " " + c.lastName == fullName
  {
    var parts := Split(fullName, ' ');
    JoinSplit(fullName, ' ');
    assert Join(parts, ' ') == parts[0] + [' '] + Join(parts[1..], ' ');
  }

  /** For names without spaces, building the full name and splitting it gives them back. */
  lemma FromFullNameRoundTrip(first: string, last: string, age: int)
    requires ' ' !in first && ' ' !in last
    ensures FromFullName(first + " " + last, age) == Success(Customer(first, last, age))
  {
    SplitAround(first, last, ' ');
    SplitFree(last, ' ');
  }

  /** The demonstration: "Cindy Williams" with age 50. */
  lemma FromFullNameDemo()
    ensures FromFullName("Cindy Williams", 50) == Success(Customer("Cindy", "Williams", 50))
  {
    FromFullNameRoundTrip("Cindy", "Williams", 50);
    assert "Cindy" + " " + "Williams" == "Cindy Williams";
  }

  /** A name of one word fails to unpack. */
  lemma FromFullNameOneWord()
    ensures FromFullName("Cindy", 50) == Failure(ValueError)
  {
    SplitFree("Cindy", ' ');
  }

  /** Three space-free words joined by single spaces split into three parts, which do not unpack. */
  lemma FromFullNameThreeParts(a: string, b: string, c: string, age: int)
    requires ' ' !in a && ' ' !in b && ' ' !in c
    ensures Split(a + " " + b + " " + c, ' ') == [a, b, c]
    ensures FromFullName(a + " " + b + " " + c, age) == Failure(ValueError)
  {
    var tail := b + [' '] + c;
    var full := a + [' '] + tail;
    assert Split(tail, ' ') == [b, c] by {
      SplitFree(c, ' ');
      SplitAround(b, c, ' ');
    }
    assert Split(full, ' ') == [a, b, c] by {
      SplitAround(a, tail, ' ');
    }
    assert a + " " + b + " " + c == full;
  }

  /** A name of three words fails to unpack. */
  lemma FromFullNameThreeWords()
    ensures FromFullName("Ann Lee Smith", 50) == Failure(ValueError)
  {
    FromFullNameThreeParts("Ann", "Lee", "Smith", 50);
    assert "Ann" + " " + "Lee" + " " + "Smith" == "Ann Lee Smith";
  }
}
