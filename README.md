# Render context of makepad: `Cx` set-up, platform kinds and the type-keyed registries

This project models the statable logic of `render/src/cx.rs`, the render
context of makepad, and proves properties of it in Dafny:

- `PlatformType` and its `is_desktop` classification (`platform_type.dfy`);
- `CxRegistries`, a table shared between clones that keeps one boxed value
  per Rust type (`registries.dfy`), with `new`, `get` and `get_or_create`;
- `Cx::default`, the initial state of the render context: one null texture,
  a row of default finger slots, every id counter at 1, "redraw everything"
  set, and every resource pool, free list, stack and lookup table empty
  (`cx.dfy`).

Field and variant types that are defined in other files of the repository
(`CxWindow`, `CxPass`, `Turtle`, `KeyEvent`, the non-empty `Area` variants, …)
are opaque types: the constructor only stores none of them, an empty
collection of them, or a value handed in. `NUM_FINGERS`,
`CxPerFinger::default()` and `CxPlatformTexture::default()` are defined outside
cx.rs and are parameters of the constructor `Cx.Cx.Default`.

The registries are a class whose one field is the table. A boxed value
remembers the `TypeId` of its type (`AnyBox`); `Registries.Downcast` stands
for the standard library's `downcast_ref`/`downcast_mut` and succeeds exactly
when the type ids agree. The class invariant `Valid()` says that every entry
is keyed by its own type id. `new` establishes it and `get_or_create` keeps
it, so as long as the table is written only through these two, the downcast
`unwrap` in `get` and in `get_or_create` cannot fail. The failure that
remains is the lookup `unwrap` in `get` on a type never registered, which the
source lets panic and the model excludes by `requires t in table`. A Rust
clone of `CxRegistries` copies the `Rc`, so `Clone` returns the same object.
The callback of `get_or_create` is a pure function value.

## Model

| member | source | states |
|---|---|---|
| `PlatformTypes.IsDesktop` | render/src/cx.rs:169-187 | true exactly for `Unknown`, `MsWindows`, `OSX` and `Linux`, false exactly for `WebBrowser`, whatever the variant's fields hold |
| `Cx.NullTexture` | render/src/cx.rs:195-207 | the null texture is BGRA, 4 by 4, not multisampled, holds one 32-bit pixel per texel (16), all zero, no float image, and is marked for upload |
| `Cx.Resize` | render/src/cx.rs:192-193 | `Vec::resize`: the result has the requested length, keeps the old elements below it and fills the rest with the given value |
| `Cx.FreeList.constructor` | render/src/cx.rs:214-226 | a new shared free list holds no slot index |
| `Cx.Cx.Default` | render/src/cx.rs:190-296 | platform `Unknown`; five fresh, distinct free lists; textures is exactly the null texture; windows, passes, views, geometries, draw shaders, fonts, all free lists, stacks, turtles, align list, key list, redraw view lists, sets and maps are empty; not in a redraw cycle with both redraw-all flags set; all six id counters are 1; no focus, drag area or cursor; `NUM_FINGERS` finger slots, each the default finger; empty registries |
| `Registries.OrInsert` | render/src/cx.rs:322-325 | the table after one `get_or_create`: the key is present, entries already there are kept unchanged, no other key appears, and an absent key gets the callback's value boxed with its own type id |
| `Registries.OrInsertIdempotent` | render/src/cx.rs:322-324 | a second `get_or_create` for the same type leaves the table as the first one left it |
| `Registries.OrInsertCommutes` | render/src/cx.rs:322-325 | `get_or_create` calls for two different types give the same table in either order |
| `Registries.ReplayFirstWins` | render/src/cx.rs:315-328 | after any run of `get_or_create` calls a type is registered exactly when it was before or some call asked for it; an existing entry is never replaced; otherwise the value kept is the first call's |
| `Registries.ReplayTypeConsistent` | render/src/cx.rs:322-326 | no run of `get_or_create` calls stores a value under another type's id, so every later downcast succeeds |
| `Registries.CxRegistries.constructor` | render/src/cx.rs:302-304 | `CxRegistries::new` starts with an empty, consistent table |
| `Registries.CxRegistries.Clone` | render/src/cx.rs:298-299 | a clone is the same shared table |
| `Registries.CxRegistries.Get` | render/src/cx.rs:306-313 | defined only for a registered type; the lookup and the downcast succeed and the stored value is returned, the table untouched |
| `Registries.CxRegistries.GetOrCreate` | render/src/cx.rs:315-328 | stores the callback's value only when the type is absent and then returns it; otherwise returns the stored value and leaves the table unchanged; keeps the table consistent; the result is what `get` returns afterwards |
| `Registries.GetOrCreateTwice` | render/src/cx.rs:322-323 | two `get_or_create` calls for one type, the second through a clone, return the same value, the one the first call found or created |

## Left out

- `default_dpi_factor` and `current_dpi_factor`: floating point.
- `profiles`: holds wall-clock `Instant`s.
- `event_handler`: a raw pointer to a closure.
- `gpu_info`, `fonts_atlas`, `live_registry`, `shader_registry` and `platform`: their definitions are not part of this model; the null texture's `platform` and the finger default are parameters instead.
- `NUM_FINGERS`: its value is defined outside cx.rs, so it is the `numFingers` parameter.
- `usize` fields and indices are modelled as unbounded naturals; no arithmetic happens on them here.
- Registries.CxRegistries.Get: the table is the public field `.0` in the source, so any holder can store a value under a foreign type id and make a later downcast panic; the model's `requires Valid()` on `Get` and `GetOrCreate` assumes that no such direct write happened.
- `RefCell` borrow checking: a `get_or_create` while a `get` borrow is alive panics in the source; the model has no borrows.
- Registries.CxRegistries.GetOrCreate: the source hands back a mutable borrow of the stored value; the model returns the value, so updates through the borrow are captured only when the payload type is a reference type.
- Registries.CxRegistries.GetOrCreate: the callback is modelled as a pure function, so its side effects, and the fact that it is not run when the type is present, are not modelled beyond the ghost `created` result.
- The shading-language compiler (`lex`, `parse`, `analyse`, `generate`) and the macOS stdin host: their source is not part of this model.
