/** The sign-in form's schema. */
module LoginScreen {
  import opened FormRules

  const LoginSchema: seq<FieldRules> := [
    (Email, [EmailFormat, Required]),
    (Password, [MinLength(6), Required])
  ]

  /**
   * Sign-in is submitted exactly when the email is non-empty and well formed
   * and the password has at least six characters (so is non-empty too).
   */
  lemma LoginValidIff(v: FormValues, isEmail: string -> bool)
    ensures Valid(LoginSchema, v, isEmail) <==> v.email != "" && isEmail(v.email) && |v.password| >= 6
  {
    assert FieldPasses(LoginSchema[0], v, isEmail) <==> v.email != "" && isEmail(v.email) by {
      assert LoginSchema[0].1[1] == Required && LoginSchema[0].1[0] == EmailFormat;
    }
    assert FieldPasses(LoginSchema[1], v, isEmail) <==> |v.password| >= 6 by {
      assert LoginSchema[1].1[0] == MinLength(6) && LoginSchema[1].1[1] == Required;
    }
  }

  /** The fresh form (both fields empty) is refused on both fields. */
  lemma EmptyLoginFailsBothFields(v: FormValues, isEmail: string -> bool)
    requires v.email == "" && v.password == ""
    ensures Failing(LoginSchema, v, isEmail) == [Email, Password]
  {
    assert !Passes(LoginSchema[0].1[1], v.email, v, isEmail);
    assert !Passes(LoginSchema[1].1[0], v.password, v, isEmail);
    assert LoginSchema[1..][1..] == [];
  }
}
