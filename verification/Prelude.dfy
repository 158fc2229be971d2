/** Results and options shared by the modules of the project. */
module Prelude {
  datatype Option<+T> = None | Some(value: T)

  datatype Result<+T> = Ok(value: T) | Err(message: string)

  lemma NoMember(s: set<int>)
    ensures (forall x :: x !in s) ==> s == {} && |s| == 0
  {
    if forall x :: x !in s {
      assert s <= {};
    }
  }

  lemma SomeMember(s: set<int>)
    requires s != {}
    ensures exists x :: x in s
  {
    NoMember(s);
  }
}
