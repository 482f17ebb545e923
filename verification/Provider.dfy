/** The two account providers, and the scope that stands for all of an account's models. */
module Provider {

  datatype Kind = XAI | Devin

  const ANY_MODEL := "*"
}
