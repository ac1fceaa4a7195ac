/** The sign-up form's schema, with its cross-field check on the confirmation. */
module SignupScreen {
  import opened FormRules

  const SignupSchema: seq<FieldRules> := [
    (Name, [Required]),
    (Email, [EmailFormat, Required]),
    (Password, [MinLength(6), Required]),
    (ConfirmPassword, [SameAs(Password), Required])
  ]

  /**
   * Sign-up is submitted exactly when the name is non-empty, the email is
   * non-empty and well formed, the password has at least six characters, and
   * the confirmation is non-empty and equal to the password.
   */
  lemma SignupValidIff(v: FormValues, isEmail: string -> bool)
    ensures Valid(SignupSchema, v, isEmail) <==>
              v.name != "" && v.email != "" && isEmail(v.email) && |v.password| >= 6 &&
              v.confirmPassword != "" && v.confirmPassword == v.password
  {
    assert FieldPasses(SignupSchema[0], v, isEmail) <==> v.name != "" by {
      assert SignupSchema[0].1[0] == Required;
    }
    assert FieldPasses(SignupSchema[1], v, isEmail) <==> v.email != "" && isEmail(v.email) by {
      assert SignupSchema[1].1[0] == EmailFormat && SignupSchema[1].1[1] == Required;
    }
    assert FieldPasses(SignupSchema[2], v, isEmail) <==> |v.password| >= 6 by {
      assert SignupSchema[2].1[0] == MinLength(6) && SignupSchema[2].1[1] == Required;
    }
    assert FieldPasses(SignupSchema[3], v, isEmail) <==> v.confirmPassword != "" && v.confirmPassword == v.password by {
      assert SignupSchema[3].1[0] == SameAs(Password) && SignupSchema[3].1[1] == Required;
    }
  }

  /** A confirmation that differs from the password is flagged, however valid the rest is. */
  lemma MismatchFlagsConfirmation(v: FormValues, isEmail: string -> bool)
    requires v.confirmPassword != v.password
    ensures ConfirmPassword in Failing(SignupSchema, v, isEmail)
  {
    assert !Passes(SignupSchema[3].1[0], v.confirmPassword, v, isEmail);
  }
}
