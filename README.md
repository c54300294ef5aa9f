# Porcelain core, modelled in Dafny

Porcelain is a small immediate-mode 2D drawing layer written in Rust on top of the
miniquad windowing and rendering library. This project models its core logic in Dafny:

- **The per-frame geometry arena** (`DrawContext`, `render.dfy`). It is a class holding a
  vertex buffer and an index buffer.
  - `new` creates both buffers empty.
  - `clear` empties both.
  - `draw_rect` appends one quad: four vertices and the literal index list `[0, 1, 3, 0, 3, 2]`.
- **The end of a frame** (`RendererState::draw`). The class `Renderer` runs the application's draw
  callback against the arena, records what the backend's vertex and index buffers receive,
  commits the frame and clears the arena. The callback is given as the sequence of arena
  commands it issues (`DrawRect` or `Clear`).
- **A frame as a value.** `Replay` is the arena after a command sequence.
  `RectsVertices` and `RectsIndices` describe the same arena declaratively, as the quads of the
  rectangles drawn in order, and `ReplayIsRects` connects the two descriptions. The arena
  invariant (`Arena.Valid`) holds in every reachable state:
  - whole quads only (2·|indices| = 3·|vertices|, |vertices| a multiple of 4);
  - every index below 4.
- **Texture registration** (`TextureContext`, `textures.dfy`).
  - The guard compares the buffer length with `width * height * bytes-per-pixel`. The product is
    taken in `usize` after widening, and `ExpectedLen` proves it cannot overflow.
  - The backend is a class counting the textures it has issued, with the textures themselves as
    ghost state.
  - The panic of `assert_eq!` becomes a `Failure` result that leaves the backend unchanged.
- **Window configuration** (`config.dfy`): `WindowConfig::default` and the conversion into the
  windowing library's `Conf`. Both are pure record functions, and a lemma shows that the conversion
  drops exactly the two capacity limits.

`draw_rect` never rebases indices, and the model follows the code here. So in a frame with
several rectangles, every index still names a vertex of the first rectangle
(`IndicesSelectFirstQuad`). There is no draw-call list, no texture grouping and no capacity
check in the code, so none is modelled.

`f32` values are modelled as reals, and `f32` addition (`F32Add`) as exact. Over positions the
contracts state only where each coordinate is copied and which sums are formed.

## Model

| member | source | states |
|---|---|---|
| Colors.Channels | src/color.rs:9-13 | the four-element array holds r, g, b, a in that order and loses nothing: rebuilding a colour from it gives the original |
| Render.NewVertex | src/render.rs:23-30 | the vertex holds position (x, y), texture coordinate (u, v) and exactly the given colour's channels |
| Render.QuadVertices | src/render.rs:65-70 | the vertices `draw_rect` builds are exactly four; which coordinate lands in which vertex is stated by Render.QuadCorners |
| Render.QuadCorners | src/render.rs:63-70 | vertex 0 is (x, y), vertex 1 keeps x and takes y+h, vertex 2 takes x+w and keeps y, vertex 3 is (x+w, y+h); all four have texture coordinate (0, 0) and the call's colour |
| Render.AppendQuadValid | src/render.rs:63-75 | appending one quad's vertices and the six literal indices keeps the arena invariant (whole quads, every index below 4) |
| Render.ValidIndicesInRange | src/render.rs:71-74 | in a valid non-empty arena every stored index is a position of the vertex buffer |
| Render.RectsVertices | src/render.rs:63-75 | after n rectangles from empty the vertex buffer has 4n entries, and entry k is corner k mod 4 of rectangle k div 4, in call order |
| Render.RectsIndices | src/render.rs:71-74 | after n rectangles from empty the index buffer has 6n entries, and entry k is the literal's entry k mod 6, whatever came before (no rebasing) |
| Render.IndicesSelectFirstQuad | src/render.rs:71-74 | every index of a frame, read against the whole vertex buffer, selects a vertex of the first rectangle drawn |
| Render.Replay | src/render.rs:51-75 | any sequence of `draw_rect` and `clear` calls, started from an empty arena, leaves the arena invariant true |
| Render.ReplayIsRects | src/render.rs:58-75 | the arena after a command sequence holds exactly the quads of the rectangles drawn since the last clear, in order |
| Render.DrawContext.constructor | src/render.rs:51-56 | both buffers start empty and the arena invariant holds |
| Render.DrawContext.Clear | src/render.rs:58-61 | both buffers are empty afterwards, whatever they held |
| Render.DrawContext.DrawRect | src/render.rs:63-75 | the vertex buffer grows by exactly the rectangle's four corner vertices, the index buffer by exactly `[0,1,3,0,3,2]`, the old contents stay a prefix, and the invariant is preserved |
| Render.Renderer.constructor | src/render.rs:132 | the renderer starts with a fresh, empty arena and nothing uploaded |
| Render.Renderer.Draw | src/render.rs:159-177 | the backend receives the whole arena produced by the draw callback, the frame is committed, and the arena is empty when `draw` returns |
| Textures.ExpectedLenBounded | src/texture.rs:17-25 | the product of two `u16` dimensions and four bytes per pixel is at most 65535·65535·4, below 2^64 |
| Textures.ExpectedLen | src/texture.rs:17-18 | the widened `usize` product equals width·height·bytes-per-pixel exactly, with no overflow |
| Textures.SizeMatches | src/texture.rs:17-19 | the registration guard: the buffer length equals the widened product width·height·bytes-per-pixel; Register succeeds exactly when it holds |
| Textures.ZeroSizedTexture | src/texture.rs:17-25 | a texture with zero width or height passes the guard exactly when the buffer is empty |
| Textures.TwoByTwoRgba | src/texture.rs:17-25 | a 2×2 RGBA8 image passes with 16 bytes and not with 10; as RGB8 it passes with 12 and not with 16 |
| Textures.Backend.constructor | src/render.rs:80 | the backend starts with no textures |
| Textures.Backend.NewTextureFromDataAndFormat | src/texture.rs:27-35 | the backend gains exactly one texture with the given data and parameters, and the id returned names it |
| Textures.TextureContext.constructor | src/texture.rs:10-12 | the context shares the given backend |
| Textures.TextureContext.Register | src/texture.rs:14-60 | it succeeds exactly when the length matches width·height·bytes-per-pixel. On failure the backend is unchanged and the error carries the expected and actual lengths. On success exactly one texture is created, with width and height widened to `u32` unchanged and the given format, and the id returned is that texture's |
| Textures.TextureContext.RegisterTextureRgba8 | src/texture.rs:14-36 | it succeeds exactly when the length is width·height·4. On a mismatch nothing is created. On success exactly one RGBA8 texture of the given size is created, and its id is returned |
| Textures.TextureContext.RegisterTextureRgb8 | src/texture.rs:38-60 | it succeeds exactly when the length is width·height·3. On a mismatch nothing is created. On success exactly one RGB8 texture of the given size is created, and its id is returned |
| Config.DefaultWindowConfig | src/conf.rs:16-30 | title "Porcelain App", 800×600, high-DPI, fullscreen and resizable all false, limits of 10000 vertices and 30000 indices per draw |
| Config.ToConf | src/conf.rs:32-46 | title, width, height, high-DPI and fullscreen are copied, `resizable` becomes `window_resizable`; the sample count is always 1, with no icon and the default platform |
| Config.ToConfForgetsLimits | src/conf.rs:32-46 | two configurations convert to the same `Conf` if and only if they agree on the six window fields, so the capacity limits are dropped |
| Config.ToConfIgnoresLimits | src/conf.rs:32-46 | changing only the two capacity limits does not change the converted `Conf` |
| Config.DefaultConf | src/conf.rs:16-46 | the default configuration converts to the `Conf` of an 800×600, windowed, fixed-size "Porcelain App" with one sample |

## Left out

- The backend plumbing of `RendererState::new` and `draw` is not modelled: buffer, shader and pipeline creation, the white texture, the projection uniforms, `apply_*`, the render pass and the fixed `draw(0, 6, 1)`. These are calls into miniquad. `Draw` records only what is uploaded and that a frame is committed. Whether the backend accepts an upload longer than the 4-vertex and 6-index buffers it created is the library's concern.
- `RendererState::update` and its `f64` clock bookkeeping are left out, because the clock is external and the values are floating point.
- The orthographic projection and `Color::from_rgba8` are left out, because they are floating-point division.
- `f32` rounding, overflow to infinity and NaN are not modelled: coordinates are reals and sums are exact.
- Render.Renderer.Draw: the application's draw callback is represented by the sequence of arena commands it issues. Its own computation is not modelled.
- Textures.ExpectedLen: `usize` is taken to be 64 bits wide. On a 32-bit target 65535·65535·4 exceeds `usize::MAX`, and that case is not modelled.
- The shared ownership of the backend (`Rc<RefCell<…>>`) is not modelled; the backend is one mutable object. The text of the panic message, whose own `u16` product may overflow, is not modelled either.
- Textures.Backend.constructor: the program's backend receives the 1×1 white texture as soon as it is created (src/render.rs:81); that texture is not among `textures` at the start. Every registration contract is stated relative to the textures already present, so this does not affect them.
- Textures.Backend.NewTextureFromDataAndFormat: the real backend's ids are opaque. Here an id is the texture's position in creation order.
- The texture parameters other than width, height and format, and the fields of the windowing library's `Platform`, are not modelled: registration and conversion leave them at the library defaults.
- `start` in src/render.rs and src/lib.rs is left out: it is event-loop startup and command-line sniffing. src/lib.rs also refers to `RendererContext` and `draw_call_size_limit`, which are not defined in src/render.rs, src/texture.rs or src/conf.rs, and is not part of this model.
- Shader sources and metadata (src/shader.rs) and the demo programs (src/main.rs, examples/basic-shape.rs) are not part of this model. Neither is the tessellation those demos call (`draw_rect_ext`, `draw_poly`, `draw_circle`, `draw_circle_arc`), which is not defined in src/render.rs, src/texture.rs or src/conf.rs.
