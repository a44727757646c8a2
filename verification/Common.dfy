// Result types and text searches shared by the models.
module Common {

  datatype Option<+T> = None | Some(value: T)

  // The error codes of src/common/error.hpp that the modelled operations return.
  datatype Error =
    | InvalidInput | InternalError | DeviceNotFound | ConnectionFailed
    | DatabaseError | DataNotFound | MqttError
    | AuthenticationFailed | AuthorizationFailed | TokenExpired

  // std::expected<T, Error>.
  datatype Result<+T> = Ok(value: T) | Err(error: Error)

  // What a call comes to when an exception may leave it.
  datatype Outcome<+T> = Returned(result: Result<T>) | Threw

  // std::string_view::find: the first position of c at or after `from`, if any.
  function IndexOf(s: string, c: char, from: nat): (r: Option<nat>)
    requires from <= |s|
    ensures r.Some? ==> from <= r.value < |s| && s[r.value] == c && c !in s[from..r.value]
    ensures r.None? ==> c !in s[from..]
    decreases |s| - from
  {
    if from == |s| then None
    else if s[from] == c then Some(from)
    else
      assert s[from..] == [s[from]] + s[from + 1..];
      var r := IndexOf(s, c, from + 1);
      assert r.Some? ==> s[from..r.value] == [s[from]] + s[from + 1..r.value];
      r
  }

  // std::string::rfind: the last position of c, if any.
  function LastIndexOf(s: string, c: char): (r: Option<nat>)
    ensures r.Some? ==> r.value < |s| && s[r.value] == c && c !in s[r.value + 1..]
    ensures r.None? ==> c !in s
  {
    if s == [] then None
    else if s[|s| - 1] == c then Some(|s| - 1)
    else
      assert s == s[..|s| - 1] + [s[|s| - 1]];
      var r := LastIndexOf(s[..|s| - 1], c);
      assert r.Some? ==> s[r.value + 1..] == s[..|s| - 1][r.value + 1..] + [s[|s| - 1]];
      r
  }

  lemma {:induction false} AbsentFrom(s: string, c: char, lo: nat, hi: nat)
    requires lo <= hi <= |s| && c !in s[lo..hi]
    ensures forall i | lo <= i < hi :: s[i] != c
  {
    forall i | lo <= i < hi ensures s[i] != c {
      assert s[i] == s[lo..hi][i - lo];
    }
  }

  // A search whose range first meets the separator at `at` finds it there.
  lemma {:induction false} IndexOfSeparator(s: string, c: char, from: nat, at: nat)
    requires from <= at < |s| && s[at] == c && c !in s[from..at]
    ensures IndexOf(s, c, from) == Some(at)
  {
    assert s[from..][at - from] == c;
    AbsentFrom(s, c, from, at);
    AbsentFrom(s, c, from, IndexOf(s, c, from).value);
  }

  // Likewise for the last separator.
  lemma {:induction false} LastIndexOfSeparator(s: string, c: char, at: nat)
    requires at < |s| && s[at] == c && c !in s[at + 1..]
    ensures LastIndexOf(s, c) == Some(at)
  {
    assert s[at + 1..] == s[at + 1..|s|];
    AbsentFrom(s, c, at + 1, |s|);
    var r := LastIndexOf(s, c).value;
    assert s[r + 1..] == s[r + 1..|s|];
    AbsentFrom(s, c, r + 1, |s|);
  }
}
