/** The exceptions the client can raise, as values. */
module Errors {

  datatype Error =
    /** `UnidenCommandError`: `raw` found an error status token in the reply. */
    | CommandError(token: string)
    /** `ValueError` from a tuple unpack: the split gave the wrong number of fields. */
    | UnpackError(expected: nat, got: nat)
    /** `ValueError` from `int()` on a text that is not an integer. */
    | IntError(text: string)
    /** `ValueError` from `float()` on a text that is not a number. */
    | FloatError(text: string)
    /** `KeyError` from a dictionary lookup or `pop`. */
    | KeyError(key: string)
    /** `IndexError` from indexing past the end of a split. */
    | IndexError
    /** `ModulationError`: the modulation is not one the scanner accepts. */
    | ModulationError(modulation: string)
    /** `BScreenError`: the broadcast-screen mask is not 16 characters of '0'/'1'. */
    | BScreenError(mask: string)
    /** Not an exception: a chain or poll that has not ended within the bound
        the model is given. The source would keep looping. */
    | Diverges
}
