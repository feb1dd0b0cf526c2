/** The demo login of chatapp/src/Auth.jsx: choose phone or e-mail, enter
    it, enter the code; the fixed code `1234` authenticates as whatever was
    entered. */
module Auth {
  import opened Wrappers
  import opened Text
  import opened Wire

  /** `step`: which of the three panels is shown. */
  datatype Step = Choose | Input | Code

  /** `method`: `''` until a button is chosen, then `'phone'` or `'email'`. */
  datatype LoginMethod = Unchosen | Phone | Email

  /** The only code the demo accepts. */
  const DemoCode: string := "1234"

  /** The identity `verifyCode` hands to `onAuth`: the untrimmed value as both
      id and name, no avatar. */
  function IdentityFor(value: string): Identity
  {
    Identity(value, value, None)
  }

  class Login {
    var step: Step
    var via: LoginMethod  // the `method` state
    var value: string
    var code: string

    /** What every reachable state satisfies: a method is chosen once past
        the first panel, the value only changes on the input panel (so it is
        non-blank on the code panel), and the code only on the code panel. */
    ghost predicate Valid()
      reads this
    {
      && (step == Choose ==> via == Unchosen && value == "")
      && (step != Choose ==> via != Unchosen)
      && (step == Code ==> !Blank(value))
      && (step != Code ==> code == "")
    }

    constructor ()
      ensures Valid()
      ensures step == Choose && via == Unchosen && value == "" && code == ""
    {
      step := Choose;
      via := Unchosen;
      value := "";
      code := "";
    }

    /** The "Usar teléfono" button of the first panel. */
    method ChoosePhone()
      requires Valid() && step == Choose
      modifies this
      ensures Valid()
      ensures step == Input && via == Phone && value == old(value) && code == old(code)
    {
      via := Phone;
      step := Input;
    }

    /** The "Usar correo" button of the first panel. */
    method ChooseEmail()
      requires Valid() && step == Choose
      modifies this
      ensures Valid()
      ensures step == Input && via == Email && value == old(value) && code == old(code)
    {
      via := Email;
      step := Input;
    }

    /** Typing in the phone / e-mail field of the input panel. */
    method EditValue(v: string)
      requires Valid() && step == Input
      modifies this
      ensures Valid()
      ensures value == v && step == old(step) && via == old(via) && code == old(code)
    {
      value := v;
    }

    /** Typing in the code field of the code panel. */
    method EditCode(c: string)
      requires Valid() && step == Code
      modifies this
      ensures Valid()
      ensures code == c && step == old(step) && via == old(via) && value == old(value)
    {
      code := c;
    }

    /** `sendCode`, the button of the input panel: a value that is blank
        after trimming keeps the panel; otherwise the code panel is shown. */
    method SendCode()
      requires Valid() && step == Input
      modifies this
      ensures Valid()
      ensures step == (if Blank(old(value)) then Input else Code)
      ensures via == old(via) && value == old(value) && code == old(code)
    {
      var blank := Blank(value);
      if !blank {
        step := Code;
      }
    }

    /** `verifyCode`: `onAuth` is called (`auth` is Some) exactly when the
        code is `1234`, with the entered value as id and name; a wrong code
        changes nothing. Only a non-blank value can ever be accepted. */
    method VerifyCode() returns (auth: Option<Identity>)
      requires Valid()
      ensures auth.Some? <==> code == DemoCode
      ensures auth.Some? ==> auth.value == Identity(value, value, None)
      ensures auth.Some? ==> step == Code && !Blank(auth.value.id)
    {
      if code == DemoCode {
        auth := Some(IdentityFor(value));
      } else {
        auth := None;
      }
    }
  }

  /** Going through the panels in order with a non-blank value and the demo
      code authenticates as that value. */
  method HappyPath(choosePhone: bool, v: string) returns (auth: Option<Identity>)
    requires !Blank(v)
    ensures auth == Some(IdentityFor(v))
  {
    var login := new Login();
    if choosePhone {
      login.ChoosePhone();
    } else {
      login.ChooseEmail();
    }
    login.EditValue(v);
    login.SendCode();
    login.EditCode(DemoCode);
    auth := login.VerifyCode();
  }

}
