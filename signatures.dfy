/** The pure half of the payment service (src/apps/profiles/services/payment.py):
    the `;`-joined strings that are hashed into gateway signatures, the mapping
    of the gateway's result code to a result tag, and the answer returned to the
    gateway. The digest itself (MD5) is a parameter; so is the merchant secret.
    Every argument is taken as the text `str()` or `%s` gives it. */
module PaymentSignatures {
  import opened Common

  const MerchantId := "553628"
  const TestingMode := "1"

  /** `base` followed by `";" + arg` for each argument in order. */
  function WithFields(base: string, args: seq<string>): string
    decreases |args|
  {
    if args == [] then base else WithFields(base, args[..|args| - 1]) + ";" + args[|args| - 1]
  }

  /** The appended part, one `;`-prefixed field per argument. */
  function Fields(args: seq<string>): string {
    if args == [] then "" else ";" + args[0] + Fields(args[1..])
  }

  lemma FieldsCons(x: string, rest: seq<string>)
    ensures Fields([x] + rest) == ";" + x + Fields(rest)
  {
    assert ([x] + rest)[1..] == rest;
  }

  lemma {:induction false} FieldsAppend(args: seq<string>, x: string)
    ensures Fields(args + [x]) == Fields(args) + ";" + x
  {
    if args != [] {
      assert (args + [x])[1..] == args[1..] + [x];
      FieldsAppend(args[1..], x);
    }
  }

  /** The string hashed is the base string followed by each argument behind a ";". */
  lemma {:induction false} WithFieldsIsBasePlusFields(base: string, args: seq<string>)
    ensures WithFields(base, args) == base + Fields(args)
    decreases |args|
  {
    if args != [] {
      var init := args[..|args| - 1];
      WithFieldsIsBasePlusFields(base, init);
      FieldsAppend(init, args[|args| - 1]);
      assert init + [args[|args| - 1]] == args;
    }
  }

  /** One more argument adds one more field at the end. */
  lemma WithFieldsSnoc(base: string, args: seq<string>, k: nat)
    requires k < |args|
    ensures WithFields(base, args[..k + 1]) == WithFields(base, args[..k]) + ";" + args[k]
  {
    assert args[..k + 1][..k] == args[..k];
  }

  /** `__get_hash_signature(base_url, *args)`: the loop that appends the fields, then the digest. */
  method HashSignature(base: string, args: seq<string>, md5: string -> string) returns (digest: string)
    ensures digest == md5(base + Fields(args))
  {
    var text := base;
    for i := 0 to |args|
      invariant text == WithFields(base, args[..i])
    {
      assert args[..i + 1][..i] == args[..i];
      text := text + ";" + args[i];
    }
    assert args[..|args|] == args;
    WithFieldsIsBasePlusFields(base, args);
    digest := md5(text);
  }

  /** The arguments `__get_payment_link` signs, in the order it passes them. */
  function LinkSignatureArgs(orderId: string, amount: string, description: string, salt: string, resultUrl: string, secret: string): seq<string> {
    [amount, description, MerchantId, orderId, resultUrl, salt, TestingMode, secret]
  }

  /** The link signature text: amount, description, merchant id, order id, result url, salt,
      testing mode, secret. */
  lemma LinkSignatureOrder(orderId: string, amount: string, description: string, salt: string, resultUrl: string, secret: string)
    ensures "init_payment.php" + Fields(LinkSignatureArgs(orderId, amount, description, salt, resultUrl, secret))
      == "init_payment.php;" + amount + ";" + description + ";553628;" + orderId + ";" + resultUrl
         + ";" + salt + ";1;" + secret
  {
    FieldsCons(secret, []);
    FieldsCons(TestingMode, [secret]);
    FieldsCons(salt, [TestingMode, secret]);
    FieldsCons(resultUrl, [salt, TestingMode, secret]);
    FieldsCons(orderId, [resultUrl, salt, TestingMode, secret]);
    FieldsCons(MerchantId, [orderId, resultUrl, salt, TestingMode, secret]);
    FieldsCons(description, [MerchantId, orderId, resultUrl, salt, TestingMode, secret]);
    FieldsCons(amount, [description, MerchantId, orderId, resultUrl, salt, TestingMode, secret]);
  }

  /** `%s` of an optional text: None renders as "None". */
  function Render(v: Option<string>): string {
    if v.Some? then v.value else "None"
  }

  /** `create_init_payment_sig`: the text before hashing. */
  function InitPaymentSignatureText(
    orderId: Option<string>, amount: Option<string>, description: Option<string>, salt: Option<string>,
    resultUrl: Option<string>, successUrl: Option<string>, successMethod: Option<string>, secret: string): string
  {
    "init_payment.php;" + Render(amount) + ";" + Render(description) + ";" + MerchantId + ";" + Render(orderId)
    + ";" + Render(resultUrl) + ";" + Render(salt) + ";" + Render(successUrl) + ";" + Render(successMethod)
    + ";" + TestingMode + ";" + secret
  }

  /** The format string and the field-appending loop produce the same text. */
  lemma InitPaymentSignatureIsFields(
    orderId: Option<string>, amount: Option<string>, description: Option<string>, salt: Option<string>,
    resultUrl: Option<string>, successUrl: Option<string>, successMethod: Option<string>, secret: string)
    ensures InitPaymentSignatureText(orderId, amount, description, salt, resultUrl, successUrl, successMethod, secret)
      == WithFields("init_payment.php", [Render(amount), Render(description), MerchantId, Render(orderId), Render(resultUrl),
                                         Render(salt), Render(successUrl), Render(successMethod), TestingMode, secret])
  {
    TenFields("init_payment.php", Render(amount), Render(description), MerchantId, Render(orderId), Render(resultUrl),
              Render(salt), Render(successUrl), Render(successMethod), TestingMode, secret);
    assert "init_payment.php;" == "init_payment.php" + ";";
  }

  lemma TenFields(b: string, x0: string, x1: string, x2: string, x3: string, x4: string,
                  x5: string, x6: string, x7: string, x8: string, x9: string)
    ensures WithFields(b, [x0, x1, x2, x3, x4, x5, x6, x7, x8, x9])
      == b + ";" + x0 + ";" + x1 + ";" + x2 + ";" + x3 + ";" + x4 + ";" + x5 + ";" + x6 + ";" + x7 + ";" + x8 + ";" + x9
  {
    var a := [x0, x1, x2, x3, x4, x5, x6, x7, x8, x9];
    assert a[..0] == [];
    WithFieldsSnoc(b, a, 0); WithFieldsSnoc(b, a, 1); WithFieldsSnoc(b, a, 2); WithFieldsSnoc(b, a, 3);
    WithFieldsSnoc(b, a, 4); WithFieldsSnoc(b, a, 5); WithFieldsSnoc(b, a, 6); WithFieldsSnoc(b, a, 7);
    WithFieldsSnoc(b, a, 8); WithFieldsSnoc(b, a, 9);
    assert a[..10] == a;
  }

  /** `create_answer_sig(pg_description, pg_salt, pg_status)`: the text before hashing. */
  function AnswerSignatureText(pgDescription: Option<string>, pgSalt: Option<string>, pgStatus: Option<string>): string {
    "init_payment.php;" + Render(pgStatus) + ";" + Render(pgDescription) + ";" + Render(pgSalt)
  }

  /** `create_status_sig`: the text before hashing. */
  function StatusSignatureText(orderId: Option<string>, paymentId: Option<string>, salt: Option<string>, secret: string): string {
    "get_status2.php;" + MerchantId + ";" + Render(orderId) + ";" + Render(paymentId) + ";" + Render(salt) + ";" + secret
  }

  lemma StatusSignatureIsFields(orderId: string, paymentId: string, salt: string, secret: string)
    ensures StatusSignatureText(Some(orderId), Some(paymentId), Some(salt), secret)
      == "get_status2.php" + Fields([MerchantId, orderId, paymentId, salt, secret])
  {
    FieldsCons(secret, []);
    FieldsCons(salt, [secret]);
    FieldsCons(paymentId, [salt, secret]);
    FieldsCons(orderId, [paymentId, salt, secret]);
    FieldsCons(MerchantId, [orderId, paymentId, salt, secret]);
  }

  // ---------------------------------------------------------------------------
  // result_url's tag and answer

  const Succeeded := "успешно"
  const Failed := "неудачно"

  /** `"успешно" if int(pg_result) == 1 else "неудачно"`. */
  function ResultTag(pgResult: int): (tag: string)
    ensures tag == Succeeded <==> pgResult == 1
    ensures tag == Succeeded || tag == Failed
  {
    if pgResult == 1 then Succeeded else Failed
  }

  /** The answer sent back to the gateway, with the digest of its signature text. */
  datatype Answer = Answer(status: string, description: string, salt: string, sig: string)

  /** `answer(pg_status)`. `create_answer_sig` is called with (status, description, salt) in
      that order, which binds them to its parameters (pg_description, pg_salt, pg_status). */
  function AnswerFor(pgStatus: string, md5: string -> string): (a: Answer)
    ensures pgStatus == Succeeded ==> a.status == "ok" && a.description == "Заказ оплачен" && a.salt == "Спасибо за покупку"
    ensures pgStatus != Succeeded ==> a.status == "rejected" && a.description == "Платеж откланен" && a.salt == "Не оплачено"
    ensures a.sig == md5("init_payment.php;" + a.salt + ";" + a.status + ";" + a.description)
  {
    var status := if pgStatus == Succeeded then "ok" else "rejected";
    var description := if pgStatus == Succeeded then "Заказ оплачен" else "Платеж откланен";
    var salt := if pgStatus == Succeeded then "Спасибо за покупку" else "Не оплачено";
    Answer(status, description, salt, md5(AnswerSignatureText(Some(status), Some(description), Some(salt))))
  }

  /** A gateway result code of 1 is answered "ok", any other is answered "rejected". */
  lemma ResultCodeToAnswer(pgResult: int, md5: string -> string)
    ensures AnswerFor(ResultTag(pgResult), md5).status == (if pgResult == 1 then "ok" else "rejected")
  {
  }
}
