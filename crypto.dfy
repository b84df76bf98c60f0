/** The cryptographic and encoding primitives the views call. Their internals belong to
    libraries outside this model (the token cipher of `login.utils`, PyNaCl's sealed box,
    base64), so they are parameters of the model. Decryption and sealing may raise; encryption
    and base64 are total, deterministic functions of their input, and nothing more about what
    any of them computes is assumed. */
module Crypto {
  import opened Json

  datatype Primitives = Primitives(
    /** `decrypt_token(ciphertext)`: the access token, or the exception it raises */
    decrypt: string -> Py<string>,
    /** `encrypt_token(token)`: the ciphertext stored in the account */
    encrypt: Json -> string,
    /** `GitHubUploadSecrets.encrypt_secret(public_key, value)`: base64-decode the key, seal the
        UTF-8 encoding of the value in a sealed box for it, base64-encode the result; raises on a
        key that does not decode and on a value that is not a string */
    seal: (Json, Json) -> Py<string>,
    /** `base64.b64encode(text.encode()).decode()` */
    base64: string -> string)
}
